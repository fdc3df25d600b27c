/** The review poster: plan from what the server already holds, write, re-read, prove.

    A draft is replayed against a remote store by runs that may stop anywhere, while every single
    write may land, fail, or land with its response lost. */
module Poster {
  import opened Wire

  // ---- Markers ----

  const CURRENT := "<!-- offload-worker:"
  const LEGACY := "<!-- spark-poster:"
  const CLOSE := " -->"

  predicate OccursAt(text: string, part: string, i: nat) {
    i + |part| <= |text| && text[i..i + |part|] == part
  }

  predicate Contains(text: string, part: string) {
    exists i :: 0 <= i <= |text| && OccursAt(text, part, i)
  }

  /** The hex digest of a text, as the marker carries it. */
  type Hash = string -> string

  function MarkerFor(hash: Hash, id: string, body: string): string {
    CURRENT + hash(id + ['\0'] + body) + CLOSE
  }

  function AfterLast(s: string, c: char): string {
    if s == "" || s[|s| - 1] == c then "" else AfterLast(s[..|s| - 1], c) + [s[|s| - 1]]
  }

  function BeforeFirst(s: string, c: char): string {
    if s == "" || s[0] == c then "" else [s[0]] + BeforeFirst(s[1..], c)
  }

  function StripRight(s: string, c: char): string {
    if s != "" && s[|s| - 1] == c then StripRight(s[..|s| - 1], c) else s
  }

  /** The digest inside a marker: after the last colon, up to the first space. */
  function DigestOf(marker: string): string {
    StripRight(BeforeFirst(AfterLast(marker, ':'), ' '), '>')
  }

  /** A marker counts as present under its current prefix or under the one used before a rename. */
  predicate Matches(body: string, marker: string) {
    Contains(body, marker) || Contains(body, LEGACY + DigestOf(marker) + CLOSE)
  }

  lemma {:induction false} AfterLastOf(a: string, b: string, c: char)
    requires c !in b
    ensures AfterLast(a + [c] + b, c) == b
  {
    var s := a + [c] + b;
    if b == "" {
      assert s[|s| - 1] == c;
    } else {
      var n := |b| - 1;
      assert s[|s| - 1] == b[n];
      assert s[..|s| - 1] == a + [c] + b[..n];
      AfterLastOf(a, b[..n], c);
      assert b == b[..n] + [b[n]];
    }
  }

  lemma {:induction false} BeforeFirstOf(a: string, b: string, c: char)
    requires c !in a
    ensures BeforeFirst(a + [c] + b, c) == a
  {
    var s := a + [c] + b;
    if a == "" {
      assert s[0] == c;
    } else {
      assert s[0] == a[0];
      assert s[1..] == a[1..] + [c] + b;
      BeforeFirstOf(a[1..], b, c);
    }
  }

  /** Taking the digest back out of a marker gives the digest that went in. */
  lemma {:induction false} DigestRoundTrip(digest: string)
    requires ':' !in digest && ' ' !in digest && '>' !in digest
    ensures DigestOf(CURRENT + digest + CLOSE) == digest
    ensures DigestOf(LEGACY + digest + CLOSE) == digest
  {
    var tail := digest + CLOSE;
    assert tail == digest + [' '] + "-->";
    assert ':' !in tail;
    BeforeFirstOf(digest, "-->", ' ');
    assert CURRENT + digest + CLOSE == "<!-- offload-worker" + [':'] + tail;
    AfterLastOf("<!-- offload-worker", tail, ':');
    assert LEGACY + digest + CLOSE == "<!-- spark-poster" + [':'] + tail;
    AfterLastOf("<!-- spark-poster", tail, ':');
  }

  // ---- Drafts and the server ----

  /** A reply names the thread it answers; a new thread names its own identity. */
  datatype Post = Post(target: string, body: string)

  datatype Draft = Draft(hash: Hash, replies: seq<Post>, openings: seq<Post>)

  function Marker(d: Draft, p: Post): string { MarkerFor(d.hash, p.target, p.body) }

  /** What is sent: the body, and the marker on a line of its own. */
  function NoteText(d: Draft, p: Post): string { p.body + "\n\n" + Marker(d, p) }

  datatype Note = Note(thread: string, body: string)

  datatype Server = Server(threads: set<string>, notes: seq<Note>)

  predicate Carries(n: Note, marker: string) { Matches(n.body, marker) }

  /** Some note of the thread carries the marker. */
  predicate AlreadyPosted(s: Server, thread: string, marker: string) {
    exists i :: 0 <= i < |s.notes| && s.notes[i].thread == thread && Carries(s.notes[i], marker)
  }

  /** Some note of a listed thread carries the marker. */
  predicate Found(s: Server, listed: set<string>, marker: string) {
    exists i :: 0 <= i < |s.notes| && s.notes[i].thread in listed && Carries(s.notes[i], marker)
  }

  function Count(notes: seq<Note>, marker: string): nat {
    if notes == [] then 0
    else Count(notes[..|notes| - 1], marker) + if Carries(notes[|notes| - 1], marker) then 1 else 0
  }

  /** The posts of a list that are in a set, in order. */
  function Keep(ps: seq<Post>, wanted: set<Post>): (r: seq<Post>)
    ensures forall p :: p in r <==> p in ps && p in wanted
  {
    if ps == [] then []
    else
      var n := |ps| - 1;
      Keep(ps[..n], wanted) + if ps[n] in wanted then [ps[n]] else []
  }

  function MissingReplies(d: Draft, s: Server): set<Post> {
    set p | p in d.replies && !AlreadyPosted(s, p.target, Marker(d, p))
  }

  function MissingOpenings(d: Draft, s: Server, listed: set<string>): set<Post> {
    set p | p in d.openings && !Found(s, listed, Marker(d, p))
  }

  function PlannedReplies(d: Draft, s: Server): seq<Post> { Keep(d.replies, MissingReplies(d, s)) }

  function PlannedOpenings(d: Draft, s: Server, listed: set<string>): seq<Post> {
    Keep(d.openings, MissingOpenings(d, s, listed))
  }

  // ---- Everything that can happen ----

  datatype Event =
    | Start(listed: set<string>)          // a run begins from a listing, which may be cut short
    | Reply(landed: bool)                 // the next reply is sent
    | Open(landed: bool, thread: string)  // the next new thread is sent
    | Stop                                // the run ends or dies
    | Comment(note: Note)                 // someone else writes
    | Delete(index: nat)                  // someone removes a note

  /** The server, and what the run in progress still has to send. */
  datatype State = State(server: Server, replies: seq<Post>, openings: seq<Post>)

  function Post1(s: Server, thread: string, text: string): Server {
    Server(s.threads + {thread}, s.notes + [Note(thread, text)])
  }

  function Step(d: Draft, s: State, e: Event): State {
    match e
    case Start(listed) =>
      var seen := listed * s.server.threads;
      // A reply to a thread that is not listed ends the run before anything is sent.
      if exists p :: p in d.replies && p.target !in seen then s.(replies := [], openings := [])
      else State(s.server, PlannedReplies(d, s.server), PlannedOpenings(d, s.server, seen))
    case Reply(landed) =>
      if s.replies == [] then s
      else
        var p := s.replies[0];
        State(if landed && p.target in s.server.threads then Post1(s.server, p.target, NoteText(d, p)) else s.server,
              s.replies[1..], s.openings)
    case Open(landed, thread) =>
      if s.replies != [] || s.openings == [] then s
      else
        State(if landed && thread !in s.server.threads
              then Post1(s.server, thread, NoteText(d, s.openings[0])) else s.server,
              [], s.openings[1..])
    case Stop => s.(replies := [], openings := [])
    case Comment(note) => s.(server := Post1(s.server, note.thread, note.body))
    case Delete(i) =>
      if i < |s.server.notes|
      then s.(server := s.server.(notes := s.server.notes[..i] + s.server.notes[i + 1..]))
      else s
  }

  function Steps(d: Draft, s: State, es: seq<Event>): State
    decreases es
  {
    if es == [] then s else Steps(d, Step(d, s, es[0]), es[1..])
  }

  // ---- Assumptions on the draft and on everyone else ----

  function Posts(d: Draft): seq<Post> { d.replies + d.openings }

  /** No note of the draft carries the marker of another one. */
  ghost predicate Separate(d: Draft) {
    forall i, j :: 0 <= i < |Posts(d)| && 0 <= j < |Posts(d)| && i != j ==>
      !Matches(NoteText(d, Posts(d)[i]), Marker(d, Posts(d)[j]))
  }

  /** Nobody else writes the draft's markers. */
  ghost predicate Foreign(d: Draft, e: Event) {
    e.Comment? ==> forall p :: p in Posts(d) ==> !Carries(e.note, Marker(d, p))
  }

  ghost predicate AllForeign(d: Draft, es: seq<Event>) {
    forall i :: 0 <= i < |es| ==> Foreign(d, es[i])
  }

  /** A listing shows a new thread if it includes one that carries its marker, should there be any. */
  ghost predicate Shows(d: Draft, s: Server, listed: set<string>, p: Post) {
    Count(s.notes, Marker(d, p)) > 0 ==> Found(s, listed * s.threads, Marker(d, p))
  }

  /** Every listing a run starts from shows the new thread. */
  ghost predicate ShownThroughout(d: Draft, s: State, es: seq<Event>, p: Post)
    decreases es
  {
    es == [] || ((es[0].Start? ==> Shows(d, s.server, es[0].listed, p))
                 && ShownThroughout(d, Step(d, s, es[0]), es[1..], p))
  }

  /** Every listing a run starts from is complete. */
  ghost predicate CompleteListings(d: Draft, s: State, es: seq<Event>)
    decreases es
  {
    es == [] || ((es[0].Start? ==> s.server.threads <= es[0].listed)
                 && CompleteListings(d, Step(d, s, es[0]), es[1..]))
  }

  lemma {:induction false} OwnMarker(d: Draft, p: Post)
    ensures Matches(NoteText(d, p), Marker(d, p))
  {
    var text, m := NoteText(d, p), Marker(d, p);
    var i := |text| - |m|;
    assert OccursAt(text, m, i);
  }

  lemma {:induction false} CountAppend(notes: seq<Note>, n: Note, marker: string)
    ensures Count(notes + [n], marker) == Count(notes, marker) + if Carries(n, marker) then 1 else 0
  {
    assert (notes + [n])[..|notes|] == notes;
  }

  lemma {:induction false} CountConcat(a: seq<Note>, b: seq<Note>, marker: string)
    ensures Count(a + b, marker) == Count(a, marker) + Count(b, marker)
  {
    if b == [] {
      assert a + b == a;
    } else {
      var n := |b| - 1;
      assert (a + b)[..|a + b| - 1] == a + b[..n];
      CountConcat(a, b[..n], marker);
    }
  }

  lemma {:induction false} CountZero(notes: seq<Note>, marker: string)
    ensures Count(notes, marker) == 0 <==> forall i :: 0 <= i < |notes| ==> !Carries(notes[i], marker)
  {
    if notes != [] {
      var n := |notes| - 1;
      CountZero(notes[..n], marker);
      assert notes == notes[..n] + [notes[n]];
    }
  }

  // ---- At most once ----

  /** A reply's marker appears at most once, only on its own thread, and not at all while the reply is
      still to be sent. */
  ghost predicate ReplySafe(d: Draft, s: State, p: Post) {
    && Count(s.server.notes, Marker(d, p)) <= 1
    && OnItsThread(d, s.server.notes, p)
    && (p in s.replies ==> Count(s.server.notes, Marker(d, p)) == 0)
  }

  ghost predicate OpeningSafe(d: Draft, s: State, p: Post) {
    && Count(s.server.notes, Marker(d, p)) <= 1
    && (p in s.openings ==> Count(s.server.notes, Marker(d, p)) == 0)
  }

  /** What a run still has to send comes from the draft, each post once. */
  ghost predicate Tidy(d: Draft, s: State) {
    && (forall p :: p in s.replies ==> p in d.replies) && Distinct(s.replies)
    && (forall p :: p in s.openings ==> p in d.openings) && Distinct(s.openings)
    && (forall i :: 0 <= i < |s.server.notes| ==> s.server.notes[i].thread in s.server.threads)
  }

  lemma {:induction false} SeparateDistinct(d: Draft)
    requires Separate(d)
    ensures Distinct(d.replies) && Distinct(d.openings)
    ensures forall p, q :: p in d.replies && q in d.openings ==> p != q
    ensures forall p, q :: p in Posts(d) && q in Posts(d) && p != q ==> !Matches(NoteText(d, p), Marker(d, q))
  {
    var ps := Posts(d);
    forall i, j | 0 <= i < j < |ps| ensures ps[i] != ps[j] {
      OwnMarker(d, ps[i]);
      assert !Matches(NoteText(d, ps[i]), Marker(d, ps[j]));
    }
    forall i, j | 0 <= i < j < |d.replies| ensures d.replies[i] != d.replies[j] {
      assert ps[i] == d.replies[i] && ps[j] == d.replies[j];
    }
    forall i, j | 0 <= i < j < |d.openings| ensures d.openings[i] != d.openings[j] {
      assert ps[|d.replies| + i] == d.openings[i] && ps[|d.replies| + j] == d.openings[j];
    }
    forall p, q | p in d.replies && q in d.openings ensures p != q {
      var i :| 0 <= i < |d.replies| && d.replies[i] == p;
      var j :| 0 <= j < |d.openings| && d.openings[j] == q;
      assert ps[i] == p && ps[|d.replies| + j] == q;
    }
  }

  lemma {:induction false} KeepDistinct(ps: seq<Post>, wanted: set<Post>)
    requires Distinct(ps)
    ensures Distinct(Keep(ps, wanted))
  {
    if ps != [] {
      var n := |ps| - 1;
      KeepDistinct(ps[..n], wanted);
      assert ps[n] !in ps[..n];
    }
  }

  lemma {:induction false} TidyStep(d: Draft, s: State, e: Event)
    requires Separate(d) && Tidy(d, s)
    ensures Tidy(d, Step(d, s, e))
  {
    SeparateDistinct(d);
    match e
    case Start(listed) =>
      KeepDistinct(d.replies, MissingReplies(d, s.server));
      KeepDistinct(d.openings, MissingOpenings(d, s.server, listed * s.server.threads));
    case _ =>
  }

  /** Removing a note never adds a carrier. */
  lemma {:induction false} CountDelete(notes: seq<Note>, i: nat, marker: string)
    requires i < |notes|
    ensures Count(notes[..i] + notes[i + 1..], marker) <= Count(notes, marker)
  {
    var gone := [notes[i]];
    assert notes == notes[..i] + (gone + notes[i + 1..]);
    CountConcat(notes[..i], gone + notes[i + 1..], marker);
    CountConcat(gone, notes[i + 1..], marker);
    CountConcat(notes[..i], notes[i + 1..], marker);
  }

  /** What one write does to one marker. */
  lemma {:induction false} PostCount(d: Draft, s: Server, thread: string, p: Post, q: Post)
    requires Separate(d) && p in Posts(d) && q in Posts(d)
    ensures Count(Post1(s, thread, NoteText(d, p)).notes, Marker(d, q))
         == Count(s.notes, Marker(d, q)) + if p == q then 1 else 0
  {
    SeparateDistinct(d);
    OwnMarker(d, p);
    CountAppend(s.notes, Note(thread, NoteText(d, p)), Marker(d, q));
  }

  ghost predicate OnItsThread(d: Draft, notes: seq<Note>, p: Post) {
    forall i :: 0 <= i < |notes| && Carries(notes[i], Marker(d, p)) ==> notes[i].thread == p.target
  }

  lemma {:induction false} WriteKeepsReply(d: Draft, s: Server, thread: string, q: Post, p: Post)
    requires Separate(d) && q in Posts(d) && p in Posts(d)
    requires OnItsThread(d, s.notes, p) && (p == q ==> thread == p.target)
    ensures OnItsThread(d, Post1(s, thread, NoteText(d, q)).notes, p)
    ensures Count(Post1(s, thread, NoteText(d, q)).notes, Marker(d, p))
         == Count(s.notes, Marker(d, p)) + if p == q then 1 else 0
  {
    SeparateDistinct(d);
    PostCount(d, s, thread, q, p);
  }

  /** A run plans a reply only if its thread does not carry it, so nothing does. */
  lemma {:induction false} ReplyStart(d: Draft, s: State, listed: set<string>, p: Post)
    requires p in d.replies && ReplySafe(d, s, p)
    ensures ReplySafe(d, Step(d, s, Start(listed)), p)
  {
    CountZero(s.server.notes, Marker(d, p));
  }

  lemma {:induction false} ReplyWrite(d: Draft, s: State, e: Event, p: Post)
    requires (e.Reply? && s.replies != []) || (e.Open? && s.replies == [] && s.openings != [])
    requires Separate(d) && Tidy(d, s) && p in d.replies && ReplySafe(d, s, p)
    ensures ReplySafe(d, Step(d, s, e), p)
  {
    SeparateDistinct(d);
    assert p in Posts(d);
    if e.Reply? {
      var q := s.replies[0];
      assert q in d.replies && q in Posts(d);
      WriteKeepsReply(d, s.server, q.target, q, p);
      assert s.replies == [q] + s.replies[1..];
      assert q !in s.replies[1..];
    } else {
      var q := s.openings[0];
      assert q in d.openings && q in Posts(d);
      WriteKeepsReply(d, s.server, e.thread, q, p);
    }
  }

  lemma {:induction false} ReplyOthers(d: Draft, s: State, e: Event, p: Post)
    requires (e.Comment? || e.Delete?) && Foreign(d, e) && p in d.replies && ReplySafe(d, s, p)
    ensures ReplySafe(d, Step(d, s, e), p)
  {
    assert p in Posts(d);
    if e.Comment? {
      CountAppend(s.server.notes, e.note, Marker(d, p));
    } else if e.index < |s.server.notes| {
      CountDelete(s.server.notes, e.index, Marker(d, p));
    }
  }

  lemma {:induction false} ReplyStep(d: Draft, s: State, e: Event, p: Post)
    requires Separate(d) && Tidy(d, s) && Foreign(d, e) && p in d.replies && ReplySafe(d, s, p)
    ensures ReplySafe(d, Step(d, s, e), p)
  {
    match e
    case Start(listed) => ReplyStart(d, s, listed, p);
    case Reply(_) => if s.replies != [] { ReplyWrite(d, s, e, p); }
    case Open(_, _) => if s.replies == [] && s.openings != [] { ReplyWrite(d, s, e, p); }
    case Stop =>
    case Comment(_) => ReplyOthers(d, s, e, p);
    case Delete(_) => ReplyOthers(d, s, e, p);
  }

  lemma {:induction false} OpeningWrite(d: Draft, s: State, e: Event, p: Post)
    requires (e.Reply? && s.replies != []) || (e.Open? && s.replies == [] && s.openings != [])
    requires Separate(d) && Tidy(d, s) && p in d.openings && OpeningSafe(d, s, p)
    ensures OpeningSafe(d, Step(d, s, e), p)
  {
    SeparateDistinct(d);
    assert p in Posts(d);
    if e.Reply? {
      var q := s.replies[0];
      assert q in d.replies && q in Posts(d);
      PostCount(d, s.server, q.target, q, p);
    } else {
      var q := s.openings[0];
      assert q in d.openings && q in Posts(d);
      PostCount(d, s.server, e.thread, q, p);
      assert s.openings == [q] + s.openings[1..];
    }
  }

  lemma {:induction false} OpeningOthers(d: Draft, s: State, e: Event, p: Post)
    requires (e.Comment? || e.Delete?) && Foreign(d, e) && p in d.openings && OpeningSafe(d, s, p)
    ensures OpeningSafe(d, Step(d, s, e), p)
  {
    assert p in Posts(d);
    if e.Comment? {
      CountAppend(s.server.notes, e.note, Marker(d, p));
    } else if e.index < |s.server.notes| {
      CountDelete(s.server.notes, e.index, Marker(d, p));
    }
  }

  lemma {:induction false} OpeningStep(d: Draft, s: State, e: Event, p: Post)
    requires Separate(d) && Tidy(d, s) && Foreign(d, e) && p in d.openings && OpeningSafe(d, s, p)
    requires e.Start? ==> Shows(d, s.server, e.listed, p)
    ensures OpeningSafe(d, Step(d, s, e), p)
  {
    match e
    case Start(_) =>
    case Reply(_) => if s.replies != [] { OpeningWrite(d, s, e, p); }
    case Open(_, _) => if s.replies == [] && s.openings != [] { OpeningWrite(d, s, e, p); }
    case Stop =>
    case Comment(_) => OpeningOthers(d, s, e, p);
    case Delete(_) => OpeningOthers(d, s, e, p);
  }

  lemma {:induction false} RepliesSafe(d: Draft, s: State, es: seq<Event>, p: Post)
    requires Separate(d) && Tidy(d, s) && AllForeign(d, es) && p in d.replies && ReplySafe(d, s, p)
    ensures ReplySafe(d, Steps(d, s, es), p)
    decreases es
  {
    if es != [] {
      assert Foreign(d, es[0]);
      TidyStep(d, s, es[0]);
      ReplyStep(d, s, es[0], p);
      RepliesSafe(d, Step(d, s, es[0]), es[1..], p);
    }
  }

  lemma {:induction false} OpeningsSafe(d: Draft, s: State, es: seq<Event>, p: Post)
    requires Separate(d) && Tidy(d, s) && AllForeign(d, es) && p in d.openings && OpeningSafe(d, s, p)
    requires ShownThroughout(d, s, es, p)
    ensures OpeningSafe(d, Steps(d, s, es), p)
    decreases es
  {
    if es != [] {
      assert Foreign(d, es[0]);
      TidyStep(d, s, es[0]);
      OpeningStep(d, s, es[0], p);
      OpeningsSafe(d, Step(d, s, es[0]), es[1..], p);
    }
  }

  /** A server that has not seen the draft yet. */
  ghost predicate Fresh(d: Draft, s: Server) {
    && (forall i :: 0 <= i < |s.notes| ==> s.notes[i].thread in s.threads)
    && forall p :: p in Posts(d) ==> Count(s.notes, Marker(d, p)) == 0
  }

  /** A reply is on the server at most once, and only on its own thread, after any sequence of runs,
      crashes, lost responses and cut-short listings. */
  lemma {:induction false} RepliesAtMostOnce(d: Draft, server: Server, es: seq<Event>, p: Post)
    requires Separate(d) && Fresh(d, server) && AllForeign(d, es) && p in d.replies
    ensures var notes := Steps(d, State(server, [], []), es).server.notes;
            && Count(notes, Marker(d, p)) <= 1
            && OnItsThread(d, notes, p)
  {
    assert p in Posts(d);
    CountZero(server.notes, Marker(d, p));
    RepliesSafe(d, State(server, [], []), es, p);
  }

  /** A complete listing shows everything. */
  lemma {:induction false} CompleteShows(d: Draft, s: State, es: seq<Event>, p: Post)
    requires Separate(d) && Tidy(d, s) && CompleteListings(d, s, es)
    ensures ShownThroughout(d, s, es, p)
    decreases es
  {
    if es != [] {
      TidyStep(d, s, es[0]);
      CompleteShows(d, Step(d, s, es[0]), es[1..], p);
      if es[0].Start? {
        CountZero(s.server.notes, Marker(d, p));
        assert es[0].listed * s.server.threads == s.server.threads;
      }
    }
  }

  /** So is a new thread, as long as each run starts from a complete listing. */
  lemma {:induction false} OpeningsAtMostOnce(d: Draft, server: Server, es: seq<Event>, p: Post)
    requires Separate(d) && Fresh(d, server) && AllForeign(d, es) && p in d.openings
    requires CompleteListings(d, State(server, [], []), es)
    ensures Count(Steps(d, State(server, [], []), es).server.notes, Marker(d, p)) <= 1
  {
    assert p in Posts(d);
    CompleteShows(d, State(server, [], []), es, p);
    OpeningsSafe(d, State(server, [], []), es, p);
  }

  lemma {:induction false} StepsConcat(d: Draft, s: State, a: seq<Event>, b: seq<Event>)
    ensures Steps(d, s, a + b) == Steps(d, Steps(d, s, a), b)
    decreases a
  {
    if a == [] {
      assert a + b == b;
    } else {
      assert (a + b)[1..] == a[1..] + b;
      StepsConcat(d, Step(d, s, a[0]), a[1..], b);
    }
  }

  // ---- Exactly which listings are safe ----

  /** The rest of one run: writes, and nobody else. */
  ghost predicate WritesOnly(es: seq<Event>) {
    forall i :: 0 <= i < |es| ==> es[i].Reply? || es[i].Open?
  }

  /** All replies can be refused. */
  lemma {:induction false} RefuseReplies(d: Draft, s: State) returns (es: seq<Event>)
    ensures WritesOnly(es) && Steps(d, s, es) == s.(replies := [])
    decreases |s.replies|
  {
    es := [];
    if s.replies != [] {
      var rest := RefuseReplies(d, Step(d, s, Reply(false)));
      es := [Reply(false)] + rest;
      assert es[1..] == rest;
    }
  }

  /** All new threads ahead of `p` can be refused. */
  lemma {:induction false} RefuseUpTo(d: Draft, s: State, p: Post, thread: string) returns (es: seq<Event>, end: State)
    requires s.replies == [] && p in s.openings
    ensures WritesOnly(es) && end == Steps(d, s, es)
    ensures end.server == s.server && end.replies == [] && end.openings != [] && end.openings[0] == p
    decreases |s.openings|
  {
    es, end := [], s;
    if s.openings[0] != p {
      assert s.openings == [s.openings[0]] + s.openings[1..];
      var rest;
      rest, end := RefuseUpTo(d, Step(d, s, Open(false, thread)), p, thread);
      es := [Open(false, thread)] + rest;
      assert es[1..] == rest;
    }
  }

  /** A planned thread can land. */
  lemma {:induction false} PlannedCanLand(d: Draft, s: State, p: Post, thread: string) returns (es: seq<Event>)
    requires p in s.openings && thread !in s.server.threads
    ensures WritesOnly(es) && Steps(d, s, es).server == Post1(s.server, thread, NoteText(d, p))
  {
    var a := RefuseReplies(d, s);
    var s1 := Steps(d, s, a);
    var b, s2 := RefuseUpTo(d, s1, p, thread);
    var last := [Open(true, thread)];
    assert last[1..] == [];
    es := a + (b + last);
    StepsConcat(d, s, a, b + last);
    StepsConcat(d, s1, b, last);
  }

  /** No run that starts from this listing puts the new thread on the server a second time. */
  ghost predicate SafeListing(d: Draft, server: Server, listed: set<string>, p: Post) {
    forall es :: WritesOnly(es) ==>
      Count(Steps(d, Step(d, State(server, [], []), Start(listed)), es).server.notes, Marker(d, p)) <= 1
  }

  /** A listing is safe for a thread that was opened before if and only if it shows that thread: one that is
      cut short in front of it opens it again. */
  lemma {:induction false} ListingDecides(d: Draft, server: Server, listed: set<string>, p: Post, thread: string)
    requires Separate(d) && Tidy(d, State(server, [], [])) && thread !in server.threads
    requires p in d.openings && Count(server.notes, Marker(d, p)) == 1
    requires forall q :: q in d.replies ==> q.target in listed * server.threads
    ensures SafeListing(d, server, listed, p) <==> Found(server, listed * server.threads, Marker(d, p))
  {
    var s0 := State(server, [], []);
    var s1 := Step(d, s0, Start(listed));
    TidyStep(d, s0, Start(listed));
    if Found(server, listed * server.threads, Marker(d, p)) {
      OpeningStep(d, s0, Start(listed), p);
      forall es | WritesOnly(es) ensures Count(Steps(d, s1, es).server.notes, Marker(d, p)) <= 1 {
        WritesAreForeign(d, s1, es, p);
        OpeningsSafe(d, s1, es, p);
      }
    } else {
      var es := PlannedCanLand(d, s1, p, thread);
      PostCount(d, server, thread, p, p);
      assert Count(Steps(d, s1, es).server.notes, Marker(d, p)) == 2;
    }
  }

  lemma {:induction false} ThreeSteps(d: Draft, s: State, a: Event, b: Event, c: Event)
    ensures Steps(d, s, [a, b, c]) == Step(d, Step(d, Step(d, s, a), b), c)
  {
    assert [a, b, c][1..] == [b, c] && [b, c][1..] == [c] && [c][1..] == [];
    var s1 := Step(d, s, a);
    var s2 := Step(d, s1, b);
    assert Steps(d, s2, [c]) == Steps(d, Step(d, s2, c), []);
    assert Steps(d, s1, [b, c]) == Steps(d, s2, [c]);
  }

  /** One run that lands its only new thread and then stops. */
  function OneThread(listed: set<string>, thread: string): seq<Event> { [Start(listed), Open(true, thread), Stop] }

  lemma {:induction false} OneThreadRun(d: Draft, server: Server, listed: set<string>, thread: string, p: Post)
    requires d.replies == [] && d.openings == [p] && thread !in server.threads
    requires !Found(server, listed * server.threads, Marker(d, p))
    ensures Steps(d, State(server, [], []), OneThread(listed, thread))
         == State(Post1(server, thread, NoteText(d, p)), [], [])
  {
    var s0 := State(server, [], []);
    var es := OneThread(listed, thread);
    var s1 := Step(d, s0, es[0]);
    KeepAll(d.openings, MissingOpenings(d, server, listed * server.threads));
    assert s1 == State(server, [], [p]);
    var s2 := Step(d, s1, es[1]);
    ThreeSteps(d, s0, es[0], es[1], es[2]);
  }

  /** From an empty server, a second run whose listing stops short of the thread the first one opened opens it
      again: the marker is on the server twice. */
  lemma {:induction false} ShortListingOpensTwice(d: Draft, p: Post, t: string, u: string)
    requires d.replies == [] && d.openings == [p] && t != u
    ensures var es := OneThread({}, t) + OneThread({}, u);
            Count(Steps(d, State(Server({}, []), [], []), es).server.notes, Marker(d, p)) == 2
  {
    var none := Server({}, []);
    var once := Post1(none, t, NoteText(d, p));
    OneThreadRun(d, none, {}, t, p);
    OneThreadRun(d, once, {}, u, p);
    StepsConcat(d, State(none, [], []), OneThread({}, t), OneThread({}, u));
    OwnMarker(d, p);
    CountAppend([], Note(t, NoteText(d, p)), Marker(d, p));
    CountAppend(once.notes, Note(u, NoteText(d, p)), Marker(d, p));
  }

  lemma {:induction false} WritesAreForeign(d: Draft, s: State, es: seq<Event>, p: Post)
    requires WritesOnly(es)
    ensures AllForeign(d, es) && ShownThroughout(d, s, es, p)
    decreases es
  {
    if es != [] {
      assert es[0].Reply? || es[0].Open?;
      WritesAreForeign(d, Step(d, s, es[0]), es[1..], p);
    }
  }

  // ---- When notes keep to their own markers ----

  /** Twelve characters of a hex digest. */
  ghost predicate LegalDigest(digest: string) {
    |digest| == 12 && forall i :: 0 <= i < |digest| ==> digest[i] !in {':', ' ', '<', '>', '\n'}
  }

  /** The draft's own texts hold no comment opener, and its digests look like digests. */
  ghost predicate Clean(d: Draft) {
    forall p :: p in Posts(d) ==> !Contains(p.body, "<!-- ") && LegalDigest(d.hash(p.target + ['\0'] + p.body))
  }

  ghost predicate DistinctMarkers(d: Draft) {
    forall i, j :: 0 <= i < j < |Posts(d)| ==> Marker(d, Posts(d)[i]) != Marker(d, Posts(d)[j])
  }

  /** A comment opener followed by text with no further one and no line break. */
  ghost predicate CommentLike(part: string) {
    |part| > 5 && part[..5] == "<!-- " && forall i :: 0 < i < |part| ==> part[i] != '<' && part[i] != '\n'
  }

  lemma {:induction false} CurrentIsComment(digest: string)
    requires LegalDigest(digest)
    ensures CommentLike(CURRENT + digest + CLOSE) && |CURRENT + digest + CLOSE| == 36
    ensures (CURRENT + digest + CLOSE)[5] == 'o'
  {
    var m := CURRENT + digest + CLOSE;
    forall i | 0 < i < |m| ensures m[i] != '<' && m[i] != '\n' {
      if i < |CURRENT| {
        assert m[i] == CURRENT[i];
      } else if i < |CURRENT| + 12 {
        assert m[i] == digest[i - |CURRENT|];
      } else {
        assert m[i] == CLOSE[i - |CURRENT| - 12];
      }
    }
  }

  lemma {:induction false} LegacyIsComment(digest: string)
    requires LegalDigest(digest)
    ensures CommentLike(LEGACY + digest + CLOSE) && |LEGACY + digest + CLOSE| == 34
    ensures (LEGACY + digest + CLOSE)[5] == 's'
  {
    var m := LEGACY + digest + CLOSE;
    forall i | 0 < i < |m| ensures m[i] != '<' && m[i] != '\n' {
      if i < |LEGACY| {
        assert m[i] == LEGACY[i];
      } else if i < |LEGACY| + 12 {
        assert m[i] == digest[i - |LEGACY|];
      } else {
        assert m[i] == CLOSE[i - |LEGACY| - 12];
      }
    }
  }

  lemma {:induction false} OccursInBody(body: string, rest: string, part: string, k: nat)
    requires OccursAt(body + rest, part, k) && k + |part| <= |body| && |part| > 5 && part[..5] == "<!-- "
    ensures Contains(body, "<!-- ")
  {
    assert body[k..k + |part|] == part;
    assert body[k..k + 5] == part[..5];
    assert OccursAt(body, "<!-- ", k);
  }

  lemma {:induction false} OccursAcross(body: string, own: string, part: string, k: nat)
    requires OccursAt(body + "\n\n" + own, part, k) && |body| < k + |part| && k < |body| + 2 && |part| > 0
    ensures exists i :: 0 <= i < |part| && part[i] == '\n'
  {
    var text := body + "\n\n" + own;
    var at := if k < |body| then |body| else k;
    assert text[at] == '\n';
    assert text[k..k + |part|][at - k] == text[at];
    assert part[at - k] == '\n';
  }

  lemma {:induction false} OccursInMarker(body: string, own: string, part: string, k: nat)
    requires OccursAt(body + "\n\n" + own, part, k) && |body| + 2 <= k
    ensures OccursAt(own, part, k - |body| - 2)
  {
    var text, at := body + "\n\n" + own, k - |body| - 2;
    assert own == text[|body| + 2..];
    assert own[at..at + |part|] == text[k..k + |part|];
  }

  /** In a note, a comment can only be found at the head of the note's own marker. */
  lemma {:induction false} OnlyAtTheMarker(body: string, own: string, part: string, k: nat)
    requires !Contains(body, "<!-- ") && CommentLike(own) && CommentLike(part)
    ensures OccursAt(body + "\n\n" + own, part, k) ==> OccursAt(own, part, 0)
  {
    if OccursAt(body + "\n\n" + own, part, k) {
      assert body + "\n\n" + own == body + ("\n\n" + own);
      assert part[..5][0] == '<';
      assert k + |part| > |body| by {
        if k + |part| <= |body| {
          OccursInBody(body, "\n\n" + own, part, k);
        }
      }
      assert k >= |body| + 2 by {
        if k < |body| + 2 {
          OccursAcross(body, own, part, k);
        }
      }
      OccursInMarker(body, own, part, k);
      var at := k - |body| - 2;
      assert own[at..at + |part|][0] == '<';
    }
  }

  /** Distinct markers and bodies without comments are enough: no note carries another one's marker. */
  lemma {:induction false} CleanIsSeparate(d: Draft)
    requires Clean(d) && DistinctMarkers(d)
    ensures Separate(d)
  {
    var ps := Posts(d);
    forall i, j | 0 <= i < |ps| && 0 <= j < |ps| && i != j ensures !Matches(NoteText(d, ps[i]), Marker(d, ps[j])) {
      var p, q := ps[i], ps[j];
      assert p in ps && q in ps;
      assert Marker(d, p) != Marker(d, q);
      CleanPair(d, p, q);
    }
  }

  lemma {:induction false} CleanPair(d: Draft, p: Post, q: Post)
    requires Clean(d) && p in Posts(d) && q in Posts(d) && Marker(d, p) != Marker(d, q)
    ensures !Matches(NoteText(d, p), Marker(d, q))
  {
    var digest := d.hash(q.target + ['\0'] + q.body);
    CurrentIsComment(d.hash(p.target + ['\0'] + p.body));
    CurrentIsComment(digest);
    LegacyIsComment(digest);
    DigestRoundTrip(digest);
    var own, current, legacy := Marker(d, p), Marker(d, q), LEGACY + digest + CLOSE;
    assert own[0..36] == own;
    assert !OccursAt(own, current, 0);
    assert own[0..34][5] == 'o';
    assert !OccursAt(own, legacy, 0);
    var text := NoteText(d, p);
    forall k | 0 <= k <= |text| ensures !OccursAt(text, current, k) && !OccursAt(text, legacy, k) {
      OnlyAtTheMarker(p.body, own, current, k);
      OnlyAtTheMarker(p.body, own, legacy, k);
    }
  }

  /** Without distinct markers the draft posts twice in a single run: the plan looks at the server only
      once, so both copies are sent. */
  lemma {:induction false} DuplicatePostsTwice(d: Draft, server: Server, p: Post)
    requires d.replies == [p, p] && d.openings == [] && p.target in server.threads
    requires Count(server.notes, Marker(d, p)) == 0
    ensures var es := [Start(server.threads), Reply(true), Reply(true)];
            Count(Steps(d, State(server, [], []), es).server.notes, Marker(d, p)) == 2
  {
    var m := Marker(d, p);
    CountZero(server.notes, m);
    OwnMarker(d, p);
    var s0 := State(server, [], []);
    var s1 := Step(d, s0, Start(server.threads));
    assert server.threads * server.threads == server.threads;
    assert p in MissingReplies(d, server);
    assert Keep([p], MissingReplies(d, server)) == [p];
    assert d.replies[..1] == [p];
    assert s1.replies == [p, p];
    var note := Note(p.target, NoteText(d, p));
    var s2 := Step(d, s1, Reply(true));
    assert s2.server.notes == server.notes + [note] && s2.replies == [p];
    var s3 := Step(d, s2, Reply(true));
    assert s3.server.notes == server.notes + [note] + [note];
    CountAppend(server.notes, note, m);
    CountAppend(server.notes + [note], note, m);
    ThreeSteps(d, s0, Start(server.threads), Reply(true), Reply(true));
  }

  // ---- Exactly which drafts are safe ----

  lemma {:induction false} Longest(threads: set<string>) returns (n: nat)
    ensures forall t :: t in threads ==> |t| <= n
  {
    n := 0;
    if threads != {} {
      var t :| t in threads;
      var rest := Longest(threads - {t});
      n := if rest < |t| then |t| else rest;
    }
  }

  /** The server never runs out of thread ids. */
  lemma {:induction false} FreshThread(threads: set<string>) returns (t: string)
    ensures t !in threads
  {
    var n := Longest(threads);
    t := seq(n + 1, _ => 'x');
  }

  /** These notes are those posts, sent one after the other. */
  ghost predicate AreNotes(d: Draft, notes: seq<Note>, ps: seq<Post>) {
    |notes| == |ps| && forall i :: 0 <= i < |ps| ==> notes[i].body == NoteText(d, ps[i])
  }

  lemma {:induction false} LandReplies(d: Draft, s: State) returns (es: seq<Event>, more: seq<Note>, end: State)
    requires forall i :: 0 <= i < |s.replies| ==> s.replies[i].target in s.server.threads
    ensures WritesOnly(es) && end == Steps(d, s, es) && end.replies == [] && end.openings == s.openings
    ensures end.server.notes == s.server.notes + more && AreNotes(d, more, s.replies)
    decreases |s.replies|
  {
    es, more, end := [], [], s;
    if s.replies != [] {
      var next := Step(d, s, Reply(true));
      var es', more';
      es', more', end := LandReplies(d, next);
      var note := Note(s.replies[0].target, NoteText(d, s.replies[0]));
      es, more := [Reply(true)] + es', [note] + more';
      assert es[1..] == es';
      assert next.server.notes == s.server.notes + [note];
    }
  }

  lemma {:induction false} LandOpenings(d: Draft, s: State) returns (es: seq<Event>, more: seq<Note>, end: State)
    requires s.replies == []
    ensures WritesOnly(es) && end == Steps(d, s, es)
    ensures end.server.notes == s.server.notes + more && AreNotes(d, more, s.openings)
    decreases |s.openings|
  {
    es, more, end := [], [], s;
    if s.openings != [] {
      var t := FreshThread(s.server.threads);
      var next := Step(d, s, Open(true, t));
      var es', more';
      es', more', end := LandOpenings(d, next);
      var note := Note(t, NoteText(d, s.openings[0]));
      es, more := [Open(true, t)] + es', [note] + more';
      assert es[1..] == es';
      assert next.server.notes == s.server.notes + [note];
    }
  }

  lemma {:induction false} KeepAll(ps: seq<Post>, wanted: set<Post>)
    requires forall p :: p in ps ==> p in wanted
    ensures Keep(ps, wanted) == ps
  {
    if ps != [] {
      var n := |ps| - 1;
      var rest, last := ps[..n], ps[n];
      assert ps == rest + [last];
      assert last in wanted;
      KeepAll(rest, wanted);
    }
  }

  /** On a server that has not seen the draft a run plans all of it. */
  lemma {:induction false} FreshPlansAll(d: Draft, server: Server)
    requires Fresh(d, server) && forall p :: p in d.replies ==> p.target in server.threads
    ensures Step(d, State(server, [], []), Start(server.threads)) == State(server, d.replies, d.openings)
  {
    assert server.threads * server.threads == server.threads;
    forall p | p in Posts(d)
      ensures !AlreadyPosted(server, p.target, Marker(d, p)) && !Found(server, server.threads, Marker(d, p))
    {
      CountZero(server.notes, Marker(d, p));
    }
    forall p | p in d.replies ensures p in MissingReplies(d, server) {
      assert p in Posts(d);
    }
    forall p | p in d.openings ensures p in MissingOpenings(d, server, server.threads) {
      assert p in Posts(d);
    }
    KeepAll(d.replies, MissingReplies(d, server));
    KeepAll(d.openings, MissingOpenings(d, server, server.threads));
  }

  lemma {:induction false} NotesConcat(d: Draft, a: seq<Note>, b: seq<Note>, p: seq<Post>, q: seq<Post>)
    requires AreNotes(d, a, p) && AreNotes(d, b, q)
    ensures AreNotes(d, a + b, p + q)
  {
  }

  lemma {:induction false} LandAll(d: Draft, s: State) returns (writes: seq<Event>, more: seq<Note>, end: State)
    requires forall i :: 0 <= i < |s.replies| ==> s.replies[i].target in s.server.threads
    ensures WritesOnly(writes) && end == Steps(d, s, writes)
    ensures AreNotes(d, more, s.replies + s.openings) && end.server.notes == s.server.notes + more
  {
    var a, replies, mid := LandReplies(d, s);
    var b, openings;
    b, openings, end := LandOpenings(d, mid);
    StepsConcat(d, s, a, b);
    NotesConcat(d, replies, openings, s.replies, s.openings);
    writes, more := a + b, replies + openings;
  }

  /** One run in which every write lands. */
  lemma {:induction false} EverythingLands(d: Draft, server: Server) returns (writes: seq<Event>, more: seq<Note>)
    requires Fresh(d, server) && forall p :: p in d.replies ==> p.target in server.threads
    ensures WritesOnly(writes) && AreNotes(d, more, Posts(d))
    ensures Steps(d, Step(d, State(server, [], []), Start(server.threads)), writes).server.notes == server.notes + more
  {
    FreshPlansAll(d, server);
    var end;
    writes, more, end := LandAll(d, State(server, d.replies, d.openings));
  }

  lemma {:induction false} CountTwo(notes: seq<Note>, i: nat, j: nat, marker: string)
    requires i < j < |notes| && Carries(notes[i], marker) && Carries(notes[j], marker)
    ensures Count(notes, marker) >= 2
  {
    var n := |notes| - 1;
    if j < n {
      CountTwo(notes[..n], i, j, marker);
    } else {
      CountOne(notes[..n], i, marker);
    }
  }

  lemma {:induction false} CountOne(notes: seq<Note>, i: nat, marker: string)
    requires i < |notes| && Carries(notes[i], marker)
    ensures Count(notes, marker) >= 1
  {
    CountZero(notes, marker);
  }

  /** Two posts with one marker end up on the server twice, in a single run from a complete listing. */
  lemma {:induction false} SharedMarkerPostsTwice(d: Draft, server: Server, i: nat, j: nat) returns (es: seq<Event>)
    requires Fresh(d, server) && (forall p :: p in d.replies ==> p.target in server.threads)
    requires i < j < |Posts(d)| && Marker(d, Posts(d)[i]) == Marker(d, Posts(d)[j])
    ensures AllForeign(d, es) && CompleteListings(d, State(server, [], []), es)
    ensures Count(Steps(d, State(server, [], []), es).server.notes, Marker(d, Posts(d)[i])) >= 2
  {
    var m := Marker(d, Posts(d)[i]);
    var s0 := State(server, [], []);
    var writes, more := EverythingLands(d, server);
    BothCarry(d, more, i, j, m);
    CountConcat(server.notes, more, m);
    es := [Start(server.threads)] + writes;
    assert es[1..] == writes;
    WritesAreComplete(d, Step(d, s0, es[0]), writes);
  }

  lemma {:induction false} BothCarry(d: Draft, notes: seq<Note>, i: nat, j: nat, marker: string)
    requires i < j < |Posts(d)| && AreNotes(d, notes, Posts(d))
    requires Marker(d, Posts(d)[i]) == marker && Marker(d, Posts(d)[j]) == marker
    ensures Count(notes, marker) >= 2
  {
    OwnMarker(d, Posts(d)[i]);
    OwnMarker(d, Posts(d)[j]);
    CountTwo(notes, i, j, marker);
  }

  lemma {:induction false} WritesAreComplete(d: Draft, s: State, es: seq<Event>)
    requires WritesOnly(es)
    ensures AllForeign(d, es) && CompleteListings(d, s, es)
    decreases es
  {
    if es != [] {
      assert es[0].Reply? || es[0].Open?;
      WritesAreComplete(d, Step(d, s, es[0]), es[1..]);
    }
  }

  ghost predicate Once(d: Draft, server: Server) {
    forall p :: p in Posts(d) ==> Count(server.notes, Marker(d, p)) <= 1
  }

  /** Whatever happens, short of others writing the draft's markers and cut-short listings, nothing of the draft
      is on the server twice. */
  ghost predicate AlwaysOnce(d: Draft, server: Server) {
    forall es :: AllForeign(d, es) && CompleteListings(d, State(server, [], []), es) ==>
      Once(d, Steps(d, State(server, [], []), es).server)
  }

  lemma {:induction false} DistinctIsOnce(d: Draft, server: Server, es: seq<Event>)
    requires Separate(d) && Fresh(d, server) && AllForeign(d, es) && CompleteListings(d, State(server, [], []), es)
    ensures Once(d, Steps(d, State(server, [], []), es).server)
  {
    forall p | p in Posts(d) ensures Count(Steps(d, State(server, [], []), es).server.notes, Marker(d, p)) <= 1 {
      if p in d.replies {
        RepliesAtMostOnce(d, server, es, p);
      } else {
        OpeningsAtMostOnce(d, server, es, p);
      }
    }
  }

  /** The poster is idempotent on a draft without comment openers if and only if its markers are distinct. */
  lemma {:induction false} SafeDrafts(d: Draft, server: Server)
    requires Clean(d) && Fresh(d, server) && forall p :: p in d.replies ==> p.target in server.threads
    ensures AlwaysOnce(d, server) <==> DistinctMarkers(d)
  {
    if DistinctMarkers(d) {
      CleanIsSeparate(d);
      forall es | AllForeign(d, es) && CompleteListings(d, State(server, [], []), es)
        ensures Once(d, Steps(d, State(server, [], []), es).server)
      {
        DistinctIsOnce(d, server, es);
      }
    } else {
      var i, j :| 0 <= i < j < |Posts(d)| && Marker(d, Posts(d)[i]) == Marker(d, Posts(d)[j]);
      var es := SharedMarkerPostsTwice(d, server, i, j);
      assert Posts(d)[i] in Posts(d);
      assert !Once(d, Steps(d, State(server, [], []), es).server);
    }
  }
}
