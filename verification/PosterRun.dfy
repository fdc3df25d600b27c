/** One run of the poster from plan to proof, what its proof is worth, and what a rerun does. */
module PosterRun {
  import opened Wire
  import opened Poster

  /** What becomes of one write: acknowledged, refused, or stored with the response lost. */
  datatype Outcome = Acked | Refused | Lost

  datatype Sent = Sent(server: Server, acked: seq<Post>, failed: seq<Post>)

  /** How a run ends: a reply's thread is not on the request, a note lookup comes up empty, or a proof
      file is written. */
  datatype Verdict = Unlisted | Crash | Proof(ok: bool)

  // ---- Sending ----

  function SendReply(d: Draft, sent: Sent, p: Post, o: Outcome): Sent {
    var landed := !o.Refused? && p.target in sent.server.threads;
    Sent(if landed then Post1(sent.server, p.target, NoteText(d, p)) else sent.server,
         if landed && o.Acked? then sent.acked + [p] else sent.acked,
         if landed && o.Acked? then sent.failed else sent.failed + [p])
  }

  function SendOpening(d: Draft, sent: Sent, p: Post, o: Outcome, thread: string): Sent {
    var landed := !o.Refused? && thread !in sent.server.threads;
    Sent(if landed then Post1(sent.server, thread, NoteText(d, p)) else sent.server,
         if landed && o.Acked? then sent.acked + [p] else sent.acked,
         if landed && o.Acked? then sent.failed else sent.failed + [p])
  }

  function SendReplies(d: Draft, s: Server, ps: seq<Post>, os: seq<Outcome>, n: nat): Sent
    requires n <= |ps| <= |os|
  {
    if n == 0 then Sent(s, [], []) else SendReply(d, SendReplies(d, s, ps, os, n - 1), ps[n - 1], os[n - 1])
  }

  function SendOpenings(d: Draft, s: Server, ps: seq<Post>, os: seq<Outcome>, ids: seq<string>, n: nat): Sent
    requires n <= |ps| <= |os| && |ps| <= |ids|
  {
    if n == 0 then Sent(s, [], [])
    else SendOpening(d, SendOpenings(d, s, ps, os, ids, n - 1), ps[n - 1], os[n - 1], ids[n - 1])
  }

  // ---- Checking ----

  datatype Check = Verified | Missing | Broken

  /** The note lookup of the proof asks for the current prefix only. */
  predicate HasCurrent(s: Server, thread: string, marker: string) {
    exists i :: 0 <= i < |s.notes| && s.notes[i].thread == thread && Contains(s.notes[i].body, marker)
  }

  function CheckReply(d: Draft, after: Server, seen: set<string>, p: Post): Check {
    if p.target !in seen || !AlreadyPosted(after, p.target, Marker(d, p)) then Missing
    else if HasCurrent(after, p.target, Marker(d, p)) then Verified
    else Broken
  }

  predicate AllChecked(d: Draft, after: Server, seen: set<string>, ps: seq<Post>, want: Check) {
    forall p :: p in ps ==> CheckReply(d, after, seen, p) == want
  }

  predicate AnyBroken(d: Draft, after: Server, seen: set<string>, ps: seq<Post>) {
    exists p :: p in ps && CheckReply(d, after, seen, p) == Broken
  }

  predicate AllFound(d: Draft, after: Server, seen: set<string>, ps: seq<Post>) {
    forall p :: p in ps ==> Found(after, seen, Marker(d, p))
  }

  /** Everything a run is exposed to: the two listings, the fate of each write, the ids of new threads. */
  datatype World = World(listed: set<string>, replyFates: seq<Outcome>, openFates: seq<Outcome>, ids: seq<string>,
                         relisted: set<string>)

  ghost predicate Covers(d: Draft, w: World) {
    |d.replies| <= |w.replyFates| && |d.openings| <= |w.openFates| && |d.openings| <= |w.ids|
  }

  lemma {:induction false} KeepShrinks(ps: seq<Post>, wanted: set<Post>)
    ensures |Keep(ps, wanted)| <= |ps|
  {
    if ps != [] {
      KeepShrinks(ps[..|ps| - 1], wanted);
    }
  }

  predicate AllListed(d: Draft, s: Server, listed: set<string>) {
    forall p :: p in d.replies ==> p.target in listed * s.threads
  }

  function SkippedReplies(d: Draft, s: Server): seq<Post> {
    Keep(d.replies, (set p | p in d.replies) - MissingReplies(d, s))
  }

  function SkippedOpenings(d: Draft, s: Server, listed: set<string>): seq<Post> {
    Keep(d.openings, (set p | p in d.openings) - MissingOpenings(d, s, listed))
  }

  function RepliesSent(d: Draft, s: Server, w: World): Sent
    requires |PlannedReplies(d, s)| <= |w.replyFates|
  {
    var planned := PlannedReplies(d, s);
    SendReplies(d, s, planned, w.replyFates, |planned|)
  }

  function OpeningsSent(d: Draft, s: Server, w: World): Sent
    requires |PlannedReplies(d, s)| <= |w.replyFates|
    requires var n := |PlannedOpenings(d, s, w.listed * s.threads)|; n <= |w.openFates| && n <= |w.ids|
  {
    var planned := PlannedOpenings(d, s, w.listed * s.threads);
    SendOpenings(d, RepliesSent(d, s, w).server, planned, w.openFates, w.ids, |planned|)
  }

  /** The verdict, given what was sent and what the re-read shows. */
  function Report(d: Draft, after: Server, seen: set<string>, replies: Sent, skipped: seq<Post>, openings: Sent,
                  skippedOpenings: seq<Post>): Verdict
  {
    if AnyBroken(d, after, seen, replies.acked + skipped) then Crash
    else Proof(replies.failed == [] && openings.failed == []
               && AllChecked(d, after, seen, replies.acked + skipped, Verified)
               && AllFound(d, after, seen, openings.acked + skippedOpenings))
  }

  ghost predicate Enough(d: Draft, s: Server, w: World) {
    && |PlannedReplies(d, s)| <= |w.replyFates|
    && var n := |PlannedOpenings(d, s, w.listed * s.threads)|; n <= |w.openFates| && n <= |w.ids|
  }

  lemma {:induction false} CoversEnough(d: Draft, s: Server, w: World)
    requires Covers(d, w)
    ensures Enough(d, s, w)
  {
    KeepShrinks(d.replies, MissingReplies(d, s));
    KeepShrinks(d.openings, MissingOpenings(d, s, w.listed * s.threads));
  }

  /** The server a run leaves behind. */
  function ServerAfter(d: Draft, s: Server, w: World): Server
    requires Enough(d, s, w)
  {
    if AllListed(d, s, w.listed) then OpeningsSent(d, s, w).server else s
  }

  /** The verdict of a run whose re-read shows `after`, which others may have changed meanwhile. */
  function VerdictOf(d: Draft, s: Server, w: World, after: Server): Verdict
    requires Enough(d, s, w)
  {
    if !AllListed(d, s, w.listed) then Unlisted
    else Report(d, after, w.relisted * after.threads, RepliesSent(d, s, w), SkippedReplies(d, s),
                OpeningsSent(d, s, w), SkippedOpenings(d, s, w.listed * s.threads))
  }

  // ---- What the proof is worth ----

  lemma {:induction false} RepliesAccounted(d: Draft, s: Server, ps: seq<Post>, os: seq<Outcome>, n: nat)
    requires n <= |ps| <= |os|
    ensures var r := SendReplies(d, s, ps, os, n);
            forall p :: p in ps[..n] <==> p in r.acked || p in r.failed
  {
    if n > 0 {
      RepliesAccounted(d, s, ps, os, n - 1);
      assert ps[..n] == ps[..n - 1] + [ps[n - 1]];
    }
  }

  lemma {:induction false} OpeningsAccounted(d: Draft, s: Server, ps: seq<Post>, os: seq<Outcome>, ids: seq<string>,
                                             n: nat)
    requires n <= |ps| <= |os| && |ps| <= |ids|
    ensures var r := SendOpenings(d, s, ps, os, ids, n);
            forall p :: p in ps[..n] <==> p in r.acked || p in r.failed
  {
    if n > 0 {
      OpeningsAccounted(d, s, ps, os, ids, n - 1);
      assert ps[..n] == ps[..n - 1] + [ps[n - 1]];
    }
  }

  /** Everything the draft asks for is on the server, where it belongs. */
  ghost predicate Delivered(d: Draft, s: Server, seen: set<string>) {
    && (forall p :: p in d.replies ==> p.target in seen && HasCurrent(s, p.target, Marker(d, p)))
    && (forall p :: p in d.openings ==> Found(s, seen, Marker(d, p)))
  }

  /** A proof that says ok is sound, whatever others did meanwhile: at the re-read, every reply's marker
      is on its own thread and every new thread's marker is on some thread. */
  lemma {:induction false} ProofIsSound(d: Draft, s: Server, w: World, after: Server)
    requires Enough(d, s, w) && VerdictOf(d, s, w, after) == Proof(true)
    ensures Delivered(d, after, w.relisted * after.threads)
  {
    var seen := w.relisted * after.threads;
    var planned := PlannedReplies(d, s);
    RepliesAccounted(d, s, planned, w.replyFates, |planned|);
    assert planned[..|planned|] == planned;
    forall p | p in d.replies ensures p.target in seen && HasCurrent(after, p.target, Marker(d, p)) {
      assert p in planned || p in SkippedReplies(d, s);
      assert p in RepliesSent(d, s, w).acked + SkippedReplies(d, s);
    }
    var toOpen := PlannedOpenings(d, s, w.listed * s.threads);
    OpeningsAccounted(d, RepliesSent(d, s, w).server, toOpen, w.openFates, w.ids, |toOpen|);
    assert toOpen[..|toOpen|] == toOpen;
    forall p | p in d.openings ensures Found(after, seen, Marker(d, p)) {
      assert p in toOpen || p in SkippedOpenings(d, s, w.listed * s.threads);
      assert p in OpeningsSent(d, s, w).acked + SkippedOpenings(d, s, w.listed * s.threads);
    }
  }

  lemma {:induction false} ContainsMatches(s: Server, thread: string, marker: string)
    requires HasCurrent(s, thread, marker)
    ensures AlreadyPosted(s, thread, marker)
  {
    var i :| 0 <= i < |s.notes| && s.notes[i].thread == thread && Contains(s.notes[i].body, marker);
    assert Carries(s.notes[i], marker);
  }

  lemma {:induction false} KeepNothing(ps: seq<Post>, wanted: set<Post>)
    requires forall p :: p in ps ==> p !in wanted
    ensures Keep(ps, wanted) == []
  {
    if ps != [] {
      var n := |ps| - 1;
      assert ps[n] in ps;
      KeepNothing(ps[..n], wanted);
    }
  }

  /** Once delivered, a rerun posts nothing, changes nothing and proves ok again, whatever the fate its
      writes would have met, as long as its listings show the threads that hold the draft. */
  lemma {:induction false} RerunIsQuiet(d: Draft, s: Server, seen: set<string>, w: World)
    requires Delivered(d, s, seen) && seen <= w.listed * s.threads && seen <= w.relisted * s.threads
    ensures PlannedReplies(d, s) == [] && PlannedOpenings(d, s, w.listed * s.threads) == []
    ensures Enough(d, s, w) && ServerAfter(d, s, w) == s && VerdictOf(d, s, w, s) == Proof(true)
  {
    forall p | p in d.replies ensures AlreadyPosted(s, p.target, Marker(d, p)) && p.target in seen {
      ContainsMatches(s, p.target, Marker(d, p));
    }
    KeepNothing(d.replies, MissingReplies(d, s));
    FoundMore(d, s, seen, w.listed * s.threads);
    FoundMore(d, s, seen, w.relisted * s.threads);
    KeepNothing(d.openings, MissingOpenings(d, s, w.listed * s.threads));
  }

  lemma {:induction false} FoundMore(d: Draft, s: Server, seen: set<string>, more: set<string>)
    requires Delivered(d, s, seen) && seen <= more
    ensures AllFound(d, s, more, d.openings)
  {
  }

  /** A run that proves ok converges: the next run of the same draft is quiet and ok. */
  lemma {:induction false} Convergence(d: Draft, s: Server, w: World, after: Server, w': World)
    requires Enough(d, s, w) && VerdictOf(d, s, w, after) == Proof(true)
    requires w.relisted <= w'.listed && w.relisted <= w'.relisted
    ensures Enough(d, after, w') && ServerAfter(d, after, w') == after && VerdictOf(d, after, w', after) == Proof(true)
  {
    ProofIsSound(d, s, w, after);
    RerunIsQuiet(d, after, w.relisted * after.threads, w');
  }

  // ---- When a run crashes ----

  /** The second server is the first one with notes of the given posts behind. */
  ghost predicate Grown(d: Draft, s: Server, after: Server, ps: seq<Post>) {
    && s.threads <= after.threads && s.notes <= after.notes
    && forall i :: |s.notes| <= i < |after.notes| ==> IsNoteOf(d, after.notes[i], ps)
  }

  ghost predicate IsNoteOf(d: Draft, n: Note, ps: seq<Post>) { exists q :: q in ps && n.body == NoteText(d, q) }

  lemma {:induction false} GrownMore(d: Draft, s: Server, mid: Server, thread: string, p: Post, ps: seq<Post>)
    requires Grown(d, s, mid, ps) && p in ps
    ensures Grown(d, s, Post1(mid, thread, NoteText(d, p)), ps)
  {
    var after := Post1(mid, thread, NoteText(d, p));
    forall i | |s.notes| <= i < |after.notes| ensures IsNoteOf(d, after.notes[i], ps) {
      if i < |mid.notes| {
        assert IsNoteOf(d, mid.notes[i], ps);
      }
    }
  }

  lemma {:induction false} RepliesGrow(d: Draft, s: Server, ps: seq<Post>, os: seq<Outcome>, n: nat)
    requires n <= |ps| <= |os|
    ensures Grown(d, s, SendReplies(d, s, ps, os, n).server, ps)
  {
    if n > 0 {
      RepliesGrow(d, s, ps, os, n - 1);
      GrownMore(d, s, SendReplies(d, s, ps, os, n - 1).server, ps[n - 1].target, ps[n - 1], ps);
    }
  }

  lemma {:induction false} OpeningsGrow(d: Draft, s: Server, ps: seq<Post>, os: seq<Outcome>, ids: seq<string>, n: nat)
    requires n <= |ps| <= |os| && |ps| <= |ids|
    ensures Grown(d, s, SendOpenings(d, s, ps, os, ids, n).server, ps)
  {
    if n > 0 {
      OpeningsGrow(d, s, ps, os, ids, n - 1);
      GrownMore(d, s, SendOpenings(d, s, ps, os, ids, n - 1).server, ids[n - 1], ps[n - 1], ps);
    }
  }

  lemma {:induction false} CurrentStays(d: Draft, s: Server, after: Server, ps: seq<Post>, thread: string,
                                        marker: string)
    requires Grown(d, s, after, ps)
    ensures HasCurrent(s, thread, marker) ==> HasCurrent(after, thread, marker)
    ensures AlreadyPosted(s, thread, marker) ==> AlreadyPosted(after, thread, marker)
  {
    assert forall i :: 0 <= i < |s.notes| ==> after.notes[i] == s.notes[i];
  }

  /** Notes of other posts do not carry this one's marker. */
  lemma {:induction false} OthersDoNotCarry(d: Draft, s: Server, after: Server, ps: seq<Post>, p: Post)
    requires Separate(d) && Grown(d, s, after, ps) && p in Posts(d)
    requires forall q :: q in ps ==> q in Posts(d) && q != p
    ensures HasCurrent(after, p.target, Marker(d, p)) <==> HasCurrent(s, p.target, Marker(d, p))
  {
    CurrentStays(d, s, after, ps, p.target, Marker(d, p));
    SeparateDistinct(d);
    forall i | |s.notes| <= i < |after.notes| ensures !Contains(after.notes[i].body, Marker(d, p)) {
      assert IsNoteOf(d, after.notes[i], ps);
      var q :| q in ps && after.notes[i].body == NoteText(d, q);
      assert !Matches(NoteText(d, q), Marker(d, p));
    }
    if HasCurrent(after, p.target, Marker(d, p)) {
      var i :|
        0 <= i < |after.notes| && after.notes[i].thread == p.target && Contains(after.notes[i].body, Marker(d, p));
      assert after.notes[i] == s.notes[i];
    }
  }

  /** An acknowledged reply is on its thread under the current prefix. */
  lemma {:induction false} AckedIsThere(d: Draft, s: Server, ps: seq<Post>, os: seq<Outcome>, n: nat, p: Post)
    requires n <= |ps| <= |os| && p in SendReplies(d, s, ps, os, n).acked
    ensures HasCurrent(SendReplies(d, s, ps, os, n).server, p.target, Marker(d, p))
    decreases n
  {
    var before, after := SendReplies(d, s, ps, os, n - 1), SendReplies(d, s, ps, os, n);
    if p in before.acked {
      AckedIsThere(d, s, ps, os, n - 1, p);
      StaysOn(before.server, after.server, p.target, Marker(d, p));
    } else {
      LastNote(d, before.server, p);
    }
  }

  lemma {:induction false} StaysOn(s: Server, after: Server, thread: string, marker: string)
    requires HasCurrent(s, thread, marker) && s.notes <= after.notes
    ensures HasCurrent(after, thread, marker)
  {
    var i :| 0 <= i < |s.notes| && s.notes[i].thread == thread && Contains(s.notes[i].body, marker);
    assert after.notes[i] == s.notes[i];
  }

  lemma {:induction false} LastNote(d: Draft, s: Server, p: Post)
    ensures HasCurrent(Post1(s, p.target, NoteText(d, p)), p.target, Marker(d, p))
  {
    var after := Post1(s, p.target, NoteText(d, p));
    var text, m := NoteText(d, p), Marker(d, p);
    assert OccursAt(text, m, |text| - |m|);
    assert after.notes[|s.notes|].body == text;
  }

  /** Two servers of one run: before it, and at the re-read when nobody else writes. */
  lemma {:induction false} RunGrows(d: Draft, s: Server, w: World) returns (mid: Server, after: Server)
    requires Enough(d, s, w) && AllListed(d, s, w.listed)
    ensures mid == RepliesSent(d, s, w).server && after == ServerAfter(d, s, w)
    ensures Grown(d, s, mid, PlannedReplies(d, s))
    ensures Grown(d, mid, after, PlannedOpenings(d, s, w.listed * s.threads))
  {
    mid, after := RepliesSent(d, s, w).server, ServerAfter(d, s, w);
    var replies, openings := PlannedReplies(d, s), PlannedOpenings(d, s, w.listed * s.threads);
    RepliesGrow(d, s, replies, w.replyFates, |replies|);
    OpeningsGrow(d, mid, openings, w.openFates, w.ids, |openings|);
  }

  /** A reply that was there all along is looked up in vain exactly when it was there under the old prefix. */
  lemma {:induction false} SkippedCheck(d: Draft, s: Server, w: World, p: Post)
    requires Separate(d) && Enough(d, s, w) && AllListed(d, s, w.listed)
    requires p in d.replies && AlreadyPosted(s, p.target, Marker(d, p))
    ensures var after := ServerAfter(d, s, w);
            (CheckReply(d, after, w.relisted * after.threads, p) == Broken <==>
               p.target in w.relisted && !HasCurrent(s, p.target, Marker(d, p)))
  {
    var mid, after := RunGrows(d, s, w);
    var replies, openings, m := PlannedReplies(d, s), PlannedOpenings(d, s, w.listed * s.threads), Marker(d, p);
    SeparateDistinct(d);
    assert p in Posts(d);
    OthersDoNotCarry(d, s, mid, replies, p);
    OthersDoNotCarry(d, mid, after, openings, p);
    CurrentStays(d, s, mid, replies, p.target, m);
    CurrentStays(d, mid, after, openings, p.target, m);
  }

  lemma {:induction false} AckedCheck(d: Draft, s: Server, w: World, p: Post)
    requires Enough(d, s, w) && AllListed(d, s, w.listed) && p in RepliesSent(d, s, w).acked
    ensures var after := ServerAfter(d, s, w); CheckReply(d, after, w.relisted * after.threads, p) != Broken
  {
    var mid, after := RunGrows(d, s, w);
    var replies := PlannedReplies(d, s);
    AckedIsThere(d, s, replies, w.replyFates, |replies|, p);
    CurrentStays(d, mid, after, PlannedOpenings(d, s, w.listed * s.threads), p.target, Marker(d, p));
  }

  /** There is a reply under the old prefix only, on a thread the re-read shows. */
  ghost predicate LegacyOnly(d: Draft, s: Server, w: World, p: Post) {
    && p in d.replies && p.target in w.relisted
    && AlreadyPosted(s, p.target, Marker(d, p)) && !HasCurrent(s, p.target, Marker(d, p))
  }

  /** The lookup is narrower than the check: a run crashes, after it has posted whatever it had to post, if and
      only if some reply was already there under the old prefix alone. */
  lemma {:induction false} LegacyOnlyCrashes(d: Draft, s: Server, w: World)
    requires Separate(d) && Enough(d, s, w) && AllListed(d, s, w.listed)
    ensures VerdictOf(d, s, w, ServerAfter(d, s, w)) == Crash <==> exists p :: LegacyOnly(d, s, w, p)
  {
    var after := ServerAfter(d, s, w);
    var seen, acked, skipped := w.relisted * after.threads, RepliesSent(d, s, w).acked, SkippedReplies(d, s);
    if p :| LegacyOnly(d, s, w, p) {
      SkippedCheck(d, s, w, p);
      assert p in skipped && p in acked + skipped;
    }
    if AnyBroken(d, after, seen, acked + skipped) {
      var p :| p in acked + skipped && CheckReply(d, after, seen, p) == Broken;
      assert p !in acked by {
        if p in acked {
          AckedCheck(d, s, w, p);
        }
      }
      assert p in skipped;
      SkippedCheck(d, s, w, p);
      assert LegacyOnly(d, s, w, p);
    }
  }

  /** A server that holds one reply as the poster wrote it before the rename. */
  function LegacyServer(hash: Hash, p: Post): Server {
    Server({p.target}, [Note(p.target, LEGACY + hash(p.target + ['\0'] + p.body) + CLOSE)])
  }

  lemma {:induction false} LegacyServerCrashes(hash: Hash, p: Post, w: World)
    requires LegalDigest(hash(p.target + ['\0'] + p.body)) && p.target in w.listed && p.target in w.relisted
    ensures var d, s := Draft(hash, [p], []), LegacyServer(hash, p);
            Enough(d, s, w) && VerdictOf(d, s, w, ServerAfter(d, s, w)) == Crash
  {
    var d, s := Draft(hash, [p], []), LegacyServer(hash, p);
    var digest, m := hash(p.target + ['\0'] + p.body), Marker(d, p);
    DigestRoundTrip(digest);
    var note := s.notes[0];
    assert OccursAt(note.body, LEGACY + digest + CLOSE, 0);
    assert Carries(note, m);
    CurrentIsComment(digest);
    LegacyIsComment(digest);
    assert AlreadyPosted(s, p.target, m) && !HasCurrent(s, p.target, m);
    KeepNothing([p], MissingReplies(d, s));
    assert LegacyOnly(d, s, w, p);
    LegacyOnlyCrashes(d, s, w);
  }

  /** In particular a rerun over replies that are all there crashes if and only if one of them is not there
      under the current prefix, whatever else the draft holds. */
  lemma {:induction false} LegacyRerunCrashes(d: Draft, s: Server, w: World)
    requires AllListed(d, s, w.listed) && AllListed(d, s, w.relisted) && Enough(d, s, w)
    requires forall p :: p in d.replies ==> AlreadyPosted(s, p.target, Marker(d, p))
    ensures VerdictOf(d, s, w, s) == Crash <==> exists p :: p in d.replies && !HasCurrent(s, p.target, Marker(d, p))
  {
    var seen := w.relisted * s.threads;
    KeepNothing(d.replies, MissingReplies(d, s));
    var skipped := SkippedReplies(d, s);
    assert RepliesSent(d, s, w).acked + skipped == skipped;
    forall p ensures p in skipped <==> p in d.replies {
    }
    if p :| p in d.replies && !HasCurrent(s, p.target, Marker(d, p)) {
      assert CheckReply(d, s, seen, p) == Broken;
      assert p in skipped;
    }
  }

  // ---- A run is made of the events of `Poster` ----

  function ReplyEvents(d: Draft, s: Server, ps: seq<Post>, os: seq<Outcome>, n: nat): seq<Event>
    requires n <= |ps| <= |os|
  {
    if n == 0 then [] else ReplyEvents(d, s, ps, os, n - 1) + [Reply(!os[n - 1].Refused?)]
  }

  function OpenEvents(ps: seq<Post>, os: seq<Outcome>, ids: seq<string>, n: nat): seq<Event>
    requires n <= |ps| <= |os| && |ps| <= |ids|
  {
    if n == 0 then [] else OpenEvents(ps, os, ids, n - 1) + [Open(!os[n - 1].Refused?, ids[n - 1])]
  }

  lemma {:induction false} OneStep(d: Draft, s: State, e: Event)
    ensures Steps(d, s, [e]) == Step(d, s, e)
  {
    assert [e][1..] == [];
  }

  lemma {:induction false} ReplyEventsSend(d: Draft, s: Server, ps: seq<Post>, os: seq<Outcome>, rest: seq<Post>,
                                           n: nat)
    requires n <= |ps| <= |os|
    ensures Steps(d, State(s, ps, rest), ReplyEvents(d, s, ps, os, n))
         == State(SendReplies(d, s, ps, os, n).server, ps[n..], rest)
  {
    if n > 0 {
      ReplyEventsSend(d, s, ps, os, rest, n - 1);
      var e := Reply(!os[n - 1].Refused?);
      StepsConcat(d, State(s, ps, rest), ReplyEvents(d, s, ps, os, n - 1), [e]);
      OneStep(d, State(SendReplies(d, s, ps, os, n - 1).server, ps[n - 1..], rest), e);
      assert ps[n - 1..][1..] == ps[n..];
    }
  }

  lemma {:induction false} OpenEventsSend(d: Draft, s: Server, ps: seq<Post>, os: seq<Outcome>, ids: seq<string>,
                                          n: nat)
    requires n <= |ps| <= |os| && |ps| <= |ids|
    ensures Steps(d, State(s, [], ps), OpenEvents(ps, os, ids, n))
         == State(SendOpenings(d, s, ps, os, ids, n).server, [], ps[n..])
  {
    if n > 0 {
      OpenEventsSend(d, s, ps, os, ids, n - 1);
      var e := Open(!os[n - 1].Refused?, ids[n - 1]);
      StepsConcat(d, State(s, [], ps), OpenEvents(ps, os, ids, n - 1), [e]);
      OneStep(d, State(SendOpenings(d, s, ps, os, ids, n - 1).server, [], ps[n - 1..]), e);
      assert ps[n - 1..][1..] == ps[n..];
    }
  }

  function RunEvents(d: Draft, s: Server, w: World): seq<Event>
    requires Enough(d, s, w)
  {
    var replies := PlannedReplies(d, s);
    var openings := PlannedOpenings(d, s, w.listed * s.threads);
    if AllListed(d, s, w.listed) then
      [Start(w.listed)] + (ReplyEvents(d, s, replies, w.replyFates, |replies|)
                           + OpenEvents(openings, w.openFates, w.ids, |openings|))
    else [Start(w.listed)]
  }

  /** So whatever holds over all event sequences holds of runs: in particular, posting at most once. */
  lemma {:induction false} RunIsEvents(d: Draft, s: Server, w: World)
    requires Enough(d, s, w)
    ensures Steps(d, State(s, [], []), RunEvents(d, s, w)) == State(ServerAfter(d, s, w), [], [])
  {
    var start := Start(w.listed);
    var s0 := State(s, [], []);
    OneStep(d, s0, start);
    StartPlans(d, s, w);
    if AllListed(d, s, w.listed) {
      var replies, openings := PlannedReplies(d, s), PlannedOpenings(d, s, w.listed * s.threads);
      var a := ReplyEvents(d, s, replies, w.replyFates, |replies|);
      var b := OpenEvents(openings, w.openFates, w.ids, |openings|);
      StepsConcat(d, s0, [start], a + b);
      var _ := WritesAreEvents(d, s, replies, openings, w, a, b);
    }
  }

  lemma {:induction false} StartPlans(d: Draft, s: Server, w: World)
    ensures Step(d, State(s, [], []), Start(w.listed))
         == if AllListed(d, s, w.listed)
            then State(s, PlannedReplies(d, s), PlannedOpenings(d, s, w.listed * s.threads)) else State(s, [], [])
  {
    if !AllListed(d, s, w.listed) {
      assert exists p :: p in d.replies && p.target !in w.listed * s.threads;
    }
  }

  lemma {:induction false} WritesAreEvents(d: Draft, s: Server, replies: seq<Post>, openings: seq<Post>, w: World,
                                           a: seq<Event>, b: seq<Event>) returns (mid: Server)
    requires |replies| <= |w.replyFates| && |openings| <= |w.openFates| && |openings| <= |w.ids|
    requires a == ReplyEvents(d, s, replies, w.replyFates, |replies|)
    requires b == OpenEvents(openings, w.openFates, w.ids, |openings|)
    ensures mid == SendReplies(d, s, replies, w.replyFates, |replies|).server
    ensures Steps(d, State(s, replies, openings), a + b)
         == State(SendOpenings(d, mid, openings, w.openFates, w.ids, |openings|).server, [], [])
  {
    assert replies[|replies|..] == [] && openings[|openings|..] == [];
    mid := SendReplies(d, s, replies, w.replyFates, |replies|).server;
    StepsConcat(d, State(s, replies, openings), a, b);
    ReplyEventsSend(d, s, replies, w.replyFates, openings, |replies|);
    OpenEventsSend(d, mid, openings, w.openFates, w.ids, |openings|);
  }

  // ---- The run, phase by phase ----

  class Remote {
    var server: Server

    constructor (server: Server)
      ensures this.server == server
    {
      this.server := server;
    }
  }

  method PlanReplies(d: Draft, s: Server) returns (planned: seq<Post>, skipped: seq<Post>)
    ensures planned == PlannedReplies(d, s) && skipped == SkippedReplies(d, s)
  {
    planned, skipped := [], [];
    ghost var missing, present := MissingReplies(d, s), (set p | p in d.replies) - MissingReplies(d, s);
    var i := 0;
    while i < |d.replies|
      invariant 0 <= i <= |d.replies|
      invariant planned == Keep(d.replies[..i], missing) && skipped == Keep(d.replies[..i], present)
    {
      var p := d.replies[i];
      assert d.replies[..i + 1][..i] == d.replies[..i];
      if AlreadyPosted(s, p.target, Marker(d, p)) {
        skipped := skipped + [p];
      } else {
        planned := planned + [p];
      }
      i := i + 1;
    }
    assert d.replies[..i] == d.replies;
  }

  method PlanOpenings(d: Draft, s: Server, seen: set<string>) returns (planned: seq<Post>, skipped: seq<Post>)
    ensures planned == PlannedOpenings(d, s, seen) && skipped == SkippedOpenings(d, s, seen)
  {
    planned, skipped := [], [];
    ghost var missing := MissingOpenings(d, s, seen);
    ghost var present := (set p | p in d.openings) - missing;
    var i := 0;
    while i < |d.openings|
      invariant 0 <= i <= |d.openings|
      invariant planned == Keep(d.openings[..i], missing) && skipped == Keep(d.openings[..i], present)
    {
      var p := d.openings[i];
      assert d.openings[..i + 1][..i] == d.openings[..i];
      if Found(s, seen, Marker(d, p)) {
        skipped := skipped + [p];
      } else {
        planned := planned + [p];
      }
      i := i + 1;
    }
    assert d.openings[..i] == d.openings;
  }

  method SendAllReplies(d: Draft, remote: Remote, ps: seq<Post>, fates: seq<Outcome>) returns (sent: Sent)
    requires |ps| <= |fates|
    modifies remote
    ensures sent == SendReplies(d, old(remote.server), ps, fates, |ps|) && remote.server == sent.server
  {
    sent := Sent(remote.server, [], []);
    var i := 0;
    while i < |ps|
      invariant 0 <= i <= |ps|
      invariant sent == SendReplies(d, old(remote.server), ps, fates, i) && remote.server == sent.server
    {
      sent := SendReply(d, sent, ps[i], fates[i]);
      remote.server := sent.server;
      i := i + 1;
    }
  }

  method SendAllOpenings(d: Draft, remote: Remote, ps: seq<Post>, fates: seq<Outcome>, ids: seq<string>)
    returns (sent: Sent)
    requires |ps| <= |fates| && |ps| <= |ids|
    modifies remote
    ensures sent == SendOpenings(d, old(remote.server), ps, fates, ids, |ps|) && remote.server == sent.server
  {
    sent := Sent(remote.server, [], []);
    var i := 0;
    while i < |ps|
      invariant 0 <= i <= |ps|
      invariant sent == SendOpenings(d, old(remote.server), ps, fates, ids, i) && remote.server == sent.server
    {
      sent := SendOpening(d, sent, ps[i], fates[i], ids[i]);
      remote.server := sent.server;
      i := i + 1;
    }
  }

  /** `main` with `--approve`: server state first, then the writes, then the re-read that alone decides
      the verdict. */
  method Approve(d: Draft, remote: Remote, w: World) returns (verdict: Verdict)
    requires Covers(d, w)
    modifies remote
    ensures Enough(d, old(remote.server), w)
    ensures remote.server == ServerAfter(d, old(remote.server), w)
    ensures verdict == VerdictOf(d, old(remote.server), w, remote.server)
  {
    var before := remote.server;
    CoversEnough(d, before, w);
    if !AllListed(d, before, w.listed) {
      return Unlisted;
    }
    var planned, skipped := PlanReplies(d, before);
    var plannedNew, skippedNew := PlanOpenings(d, before, w.listed * before.threads);
    var replies := SendAllReplies(d, remote, planned, w.replyFates);
    var openings := SendAllOpenings(d, remote, plannedNew, w.openFates, w.ids);
    verdict := Verify(d, remote.server, w.relisted * remote.server.threads, replies, skipped, openings, skippedNew);
  }

  /** The re-read of the replies, note by note; a lookup that comes up empty ends it. */
  method VerifyReplies(d: Draft, after: Server, seen: set<string>, toCheck: seq<Post>)
    returns (broken: bool, missing: bool)
    ensures broken == AnyBroken(d, after, seen, toCheck)
    ensures !broken ==> missing == !AllChecked(d, after, seen, toCheck, Verified)
  {
    broken, missing := false, false;
    var i := 0;
    while i < |toCheck|
      invariant 0 <= i <= |toCheck|
      invariant forall k :: 0 <= k < i ==> CheckReply(d, after, seen, toCheck[k]) != Broken
      invariant missing <==> exists k :: 0 <= k < i && CheckReply(d, after, seen, toCheck[k]) == Missing
    {
      var check := CheckReply(d, after, seen, toCheck[i]);
      if check == Broken {
        assert toCheck[i] in toCheck;
        return true, missing;
      }
      missing := missing || check == Missing;
      i := i + 1;
    }
    if missing {
      var k :| 0 <= k < i && CheckReply(d, after, seen, toCheck[k]) == Missing;
      assert toCheck[k] in toCheck;
    }
  }

  /** The re-read of the new threads. */
  method VerifyOpenings(d: Draft, after: Server, seen: set<string>, toFind: seq<Post>) returns (lost: bool)
    ensures lost == !AllFound(d, after, seen, toFind)
  {
    lost := false;
    var i := 0;
    while i < |toFind|
      invariant 0 <= i <= |toFind|
      invariant lost <==> exists k :: 0 <= k < i && !Found(after, seen, Marker(d, toFind[k]))
    {
      lost := lost || !Found(after, seen, Marker(d, toFind[i]));
      i := i + 1;
    }
    if lost {
      var k :| 0 <= k < i && !Found(after, seen, Marker(d, toFind[k]));
      assert toFind[k] in toFind;
    }
  }

  method Verify(d: Draft, after: Server, seen: set<string>, replies: Sent, skipped: seq<Post>, openings: Sent,
                skippedNew: seq<Post>) returns (verdict: Verdict)
    ensures verdict == Report(d, after, seen, replies, skipped, openings, skippedNew)
  {
    var broken, missing := VerifyReplies(d, after, seen, replies.acked + skipped);
    if broken {
      return Crash;
    }
    var lost := VerifyOpenings(d, after, seen, openings.acked + skippedNew);
    verdict := Proof(replies.failed == [] && !missing && openings.failed == [] && !lost);
  }
}
