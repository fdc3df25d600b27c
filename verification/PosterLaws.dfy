/** What the poster writes, and what its verdict says, in literal terms. */
module PosterLaws {
  import opened Wire
  import opened Poster
  import opened PosterRun

  // ---- The text of a note ----

  /** The comment, an empty line, and the marker with the digest of thread and comment. */
  function Written(d: Draft, p: Post): string {
    p.body + "\n\n<!-- offload-worker:" + d.hash(p.target + ['\0'] + p.body) + " -->"
  }

  lemma {:induction false} NoteIsWritten(d: Draft, p: Post)
    ensures NoteText(d, p) == Written(d, p)
  {
    var digest := d.hash(p.target + ['\0'] + p.body);
    assert p.body + "\n\n" + ("<!-- offload-worker:" + digest + " -->") == Written(d, p);
  }

  /** A note that was written under either name of the poster counts, and no other comment does. */
  lemma {:induction false} EitherPrefixCounts(d: Draft, p: Post, body: string, digest: string)
    requires digest == d.hash(p.target + ['\0'] + p.body) && LegalDigest(digest)
    ensures Matches(body, Marker(d, p))
       <==> Contains(body, "<!-- offload-worker:" + digest + " -->")
            || Contains(body, "<!-- spark-poster:" + digest + " -->")
  {
    DigestRoundTrip(digest);
  }

  // ---- What is planned ----

  /** Some note of the thread holds the marker under one of the two names. */
  ghost predicate MarkedNote(n: Note, digest: string) {
    || Contains(n.body, "<!-- offload-worker:" + digest + " -->")
    || Contains(n.body, "<!-- spark-poster:" + digest + " -->")
  }

  lemma {:induction false} CarriesIs(d: Draft, p: Post, n: Note)
    requires LegalDigest(d.hash(p.target + ['\0'] + p.body))
    ensures Carries(n, Marker(d, p)) <==> MarkedNote(n, d.hash(p.target + ['\0'] + p.body))
  {
    EitherPrefixCounts(d, p, n.body, d.hash(p.target + ['\0'] + p.body));
  }

  /** A reply of the draft is planned if and only if no note of its own thread holds its marker. */
  lemma {:induction false} ReplyIsPlanned(d: Draft, s: Server, p: Post)
    requires LegalDigest(d.hash(p.target + ['\0'] + p.body))
    ensures p in PlannedReplies(d, s)
       <==> p in d.replies
            && forall i :: 0 <= i < |s.notes| && s.notes[i].thread == p.target ==>
                 !MarkedNote(s.notes[i], d.hash(p.target + ['\0'] + p.body))
  {
    forall i | 0 <= i < |s.notes|
      ensures Carries(s.notes[i], Marker(d, p)) <==> MarkedNote(s.notes[i], d.hash(p.target + ['\0'] + p.body))
    {
      CarriesIs(d, p, s.notes[i]);
    }
  }

  /** A new thread is planned if and only if no note of any thread the listing shows does. */
  lemma {:induction false} OpeningIsPlanned(d: Draft, s: Server, listed: set<string>, p: Post)
    requires LegalDigest(d.hash(p.target + ['\0'] + p.body))
    ensures p in PlannedOpenings(d, s, listed)
       <==> p in d.openings
            && forall i :: 0 <= i < |s.notes| && s.notes[i].thread in listed ==>
                 !MarkedNote(s.notes[i], d.hash(p.target + ['\0'] + p.body))
  {
    forall i | 0 <= i < |s.notes|
      ensures Carries(s.notes[i], Marker(d, p)) <==> MarkedNote(s.notes[i], d.hash(p.target + ['\0'] + p.body))
    {
      CarriesIs(d, p, s.notes[i]);
    }
  }

  // ---- Every write that lands ----

  ghost predicate AllLand(os: seq<Outcome>, n: nat) {
    n <= |os| && forall k :: 0 <= k < n ==> !os[k].Refused?
  }

  /** The notes of the first `n` posts, each on its own thread. */
  ghost predicate RepliesWritten(d: Draft, notes: seq<Note>, from: nat, ps: seq<Post>, n: nat) {
    from + n <= |notes| && n <= |ps|
    && forall k :: 0 <= k < n ==> notes[from + k] == Note(ps[k].target, Written(d, ps[k]))
  }

  ghost predicate OpeningsWritten(d: Draft, notes: seq<Note>, from: nat, ps: seq<Post>, ids: seq<string>, n: nat) {
    from + n <= |notes| && n <= |ps| && n <= |ids|
    && forall k :: 0 <= k < n ==> notes[from + k] == Note(ids[k], Written(d, ps[k]))
  }

  lemma {:induction false} RepliesLand(d: Draft, s: Server, ps: seq<Post>, os: seq<Outcome>, n: nat)
    requires n <= |ps| <= |os| && AllLand(os, |ps|) && forall k :: 0 <= k < |ps| ==> ps[k].target in s.threads
    ensures var after := SendReplies(d, s, ps, os, n).server;
            && s.notes <= after.notes && |after.notes| == |s.notes| + n && after.threads == s.threads
            && RepliesWritten(d, after.notes, |s.notes|, ps, n)
  {
    if n > 0 {
      RepliesLand(d, s, ps, os, n - 1);
      var before := SendReplies(d, s, ps, os, n - 1);
      ReplyLands(d, before, ps[n - 1], os[n - 1]);
      NextWritten(d, before.server.notes, |s.notes|, ps, n);
    }
  }

  lemma {:induction false} NextWritten(d: Draft, notes: seq<Note>, from: nat, ps: seq<Post>, n: nat)
    requires 0 < n <= |ps| && RepliesWritten(d, notes, from, ps, n - 1) && |notes| == from + n - 1
    ensures RepliesWritten(d, notes + [Note(ps[n - 1].target, Written(d, ps[n - 1]))], from, ps, n)
  {
  }

  lemma {:induction false} ReplyLands(d: Draft, sent: Sent, p: Post, o: Outcome)
    requires !o.Refused? && p.target in sent.server.threads
    ensures SendReply(d, sent, p, o).server
         == Server(sent.server.threads, sent.server.notes + [Note(p.target, Written(d, p))])
  {
    NoteIsWritten(d, p);
    assert sent.server.threads + {p.target} == sent.server.threads;
  }

  /** The ids given to new threads are new, and all different. */
  ghost predicate NewIds(threads: set<string>, ids: seq<string>) {
    Distinct(ids) && forall k :: 0 <= k < |ids| ==> ids[k] !in threads
  }

  lemma {:induction false} OpeningsLand(d: Draft, s: Server, ps: seq<Post>, os: seq<Outcome>, ids: seq<string>, n: nat)
    requires n <= |ps| <= |os| && |ps| <= |ids| && AllLand(os, |ps|) && NewIds(s.threads, ids)
    ensures var after := SendOpenings(d, s, ps, os, ids, n).server;
            && s.notes <= after.notes && |after.notes| == |s.notes| + n
            && OpeningsWritten(d, after.notes, |s.notes|, ps, ids, n)
            && after.threads == s.threads + set k | 0 <= k < n :: ids[k]
  {
    if n > 0 {
      OpeningsLand(d, s, ps, os, ids, n - 1);
      NoteIsWritten(d, ps[n - 1]);
      var before := SendOpenings(d, s, ps, os, ids, n - 1).server;
      assert ids[n - 1] !in before.threads;
      assert SendOpenings(d, s, ps, os, ids, n).server.notes
          == before.notes + [Note(ids[n - 1], Written(d, ps[n - 1]))];
    }
  }

  /** After a run whose writes all land the server holds what it held, then the comment of every planned reply on
      the reply's own thread, then that of every planned thread on a thread of its own, in the draft's order. */
  lemma {:induction false} EverythingIsWritten(d: Draft, s: Server, w: World)
    requires Enough(d, s, w) && AllListed(d, s, w.listed) && NewIds(s.threads, w.ids)
    requires AllLand(w.replyFates, |PlannedReplies(d, s)|)
    requires AllLand(w.openFates, |PlannedOpenings(d, s, w.listed * s.threads)|)
    ensures var replies, openings := PlannedReplies(d, s), PlannedOpenings(d, s, w.listed * s.threads);
            var notes := ServerAfter(d, s, w).notes;
            && s.notes <= notes && |notes| == |s.notes| + |replies| + |openings|
            && RepliesWritten(d, notes, |s.notes|, replies, |replies|)
            && OpeningsWritten(d, notes, |s.notes| + |replies|, openings, w.ids, |openings|)
  {
    var replies, openings := PlannedReplies(d, s), PlannedOpenings(d, s, w.listed * s.threads);
    forall k | 0 <= k < |replies| ensures replies[k].target in s.threads {
      assert replies[k] in replies;
    }
    RepliesLand(d, s, replies, w.replyFates, |replies|);
    var mid := RepliesSent(d, s, w).server;
    OpeningsLand(d, mid, openings, w.openFates, w.ids, |openings|);
    var after := ServerAfter(d, s, w);
    forall k | 0 <= k < |replies|
      ensures after.notes[|s.notes| + k] == Note(replies[k].target, Written(d, replies[k]))
    {
      assert after.notes[|s.notes| + k] == mid.notes[|s.notes| + k];
    }
  }

  // ---- Whatever becomes of the writes ----

  ghost predicate HoldsComment(d: Draft, s: Server, thread: string, p: Post) {
    exists i :: 0 <= i < |s.notes| && s.notes[i] == Note(thread, Written(d, p))
  }

  lemma {:induction false} CommentStays(d: Draft, s: Server, after: Server, thread: string, p: Post)
    requires HoldsComment(d, s, thread, p) && s.notes <= after.notes
    ensures HoldsComment(d, after, thread, p)
  {
    var i :| 0 <= i < |s.notes| && s.notes[i] == Note(thread, Written(d, p));
    assert after.notes[i] == s.notes[i];
  }

  lemma {:induction false} CommentPosted(d: Draft, s: Server, thread: string, p: Post)
    ensures HoldsComment(d, Post1(s, thread, NoteText(d, p)), thread, p)
  {
    NoteIsWritten(d, p);
    assert Post1(s, thread, NoteText(d, p)).notes[|s.notes|] == Note(thread, Written(d, p));
  }

  /** An acknowledged reply is on its thread, comment and all. */
  lemma {:induction false} AckedReplyHolds(d: Draft, s: Server, ps: seq<Post>, os: seq<Outcome>, n: nat, p: Post)
    requires n <= |ps| <= |os| && p in SendReplies(d, s, ps, os, n).acked
    ensures HoldsComment(d, SendReplies(d, s, ps, os, n).server, p.target, p)
    decreases n
  {
    var before, after := SendReplies(d, s, ps, os, n - 1), SendReplies(d, s, ps, os, n);
    if p in before.acked {
      AckedReplyHolds(d, s, ps, os, n - 1, p);
      CommentStays(d, before.server, after.server, p.target, p);
    } else {
      CommentPosted(d, before.server, p.target, p);
    }
  }

  lemma {:induction false} AckedOpeningHolds(d: Draft, s: Server, ps: seq<Post>, os: seq<Outcome>, ids: seq<string>,
                                             n: nat, p: Post) returns (thread: string)
    requires n <= |ps| <= |os| && |ps| <= |ids| && p in SendOpenings(d, s, ps, os, ids, n).acked
    ensures thread in ids && HoldsComment(d, SendOpenings(d, s, ps, os, ids, n).server, thread, p)
    decreases n
  {
    var before, after := SendOpenings(d, s, ps, os, ids, n - 1), SendOpenings(d, s, ps, os, ids, n);
    if p in before.acked {
      thread := AckedOpeningHolds(d, s, ps, os, ids, n - 1, p);
      CommentStays(d, before.server, after.server, thread, p);
    } else {
      thread := ids[n - 1];
      CommentPosted(d, before.server, thread, p);
    }
  }

  /** A proof that says ok, when nobody else writes meanwhile, delivers comments: every reply that was not there
      before is on its thread with its text, and every new thread that was not there is on one of the new ids. */
  lemma {:induction false} ProofDeliversComments(d: Draft, s: Server, w: World)
    requires Enough(d, s, w) && VerdictOf(d, s, w, ServerAfter(d, s, w)) == Proof(true)
    ensures var after := ServerAfter(d, s, w);
            && s.notes <= after.notes
            && (forall p :: p in d.replies ==>
                  AlreadyPosted(s, p.target, Marker(d, p)) || HoldsComment(d, after, p.target, p))
            && (forall p :: p in d.openings ==>
                  Found(s, w.listed * s.threads, Marker(d, p))
                  || exists id :: id in w.ids && HoldsComment(d, after, id, p))
  {
    var after := ServerAfter(d, s, w);
    var planned, toOpen := PlannedReplies(d, s), PlannedOpenings(d, s, w.listed * s.threads);
    var mid, end := RunGrows(d, s, w);
    RepliesAccounted(d, s, planned, w.replyFates, |planned|);
    OpeningsAccounted(d, mid, toOpen, w.openFates, w.ids, |toOpen|);
    assert planned[..|planned|] == planned && toOpen[..|toOpen|] == toOpen;
    forall p | p in d.replies && !AlreadyPosted(s, p.target, Marker(d, p)) ensures HoldsComment(d, after, p.target, p) {
      assert p in planned;
      AckedReplyHolds(d, s, planned, w.replyFates, |planned|, p);
      CommentStays(d, mid, after, p.target, p);
    }
    forall p | p in d.openings && !Found(s, w.listed * s.threads, Marker(d, p))
      ensures exists id :: id in w.ids && HoldsComment(d, after, id, p)
    {
      assert p in toOpen;
      var id := AckedOpeningHolds(d, mid, toOpen, w.openFates, w.ids, |toOpen|, p);
    }
  }

  // ---- The verdict ----

  /** The proof says ok if and only if no write failed and everything the draft asks for is there. */
  lemma {:induction false} OkExactly(d: Draft, s: Server, w: World, after: Server)
    requires Enough(d, s, w) && AllListed(d, s, w.listed)
    ensures VerdictOf(d, s, w, after) == Proof(true)
       <==> RepliesSent(d, s, w).failed == [] && OpeningsSent(d, s, w).failed == []
            && Delivered(d, after, w.relisted * after.threads)
  {
    var seen := w.relisted * after.threads;
    if VerdictOf(d, s, w, after) == Proof(true) {
      ProofIsSound(d, s, w, after);
    }
    if Delivered(d, after, seen) {
      var planned, toOpen := PlannedReplies(d, s), PlannedOpenings(d, s, w.listed * s.threads);
      RepliesAccounted(d, s, planned, w.replyFates, |planned|);
      OpeningsAccounted(d, RepliesSent(d, s, w).server, toOpen, w.openFates, w.ids, |toOpen|);
      assert planned[..|planned|] == planned && toOpen[..|toOpen|] == toOpen;
      forall p | p in RepliesSent(d, s, w).acked + SkippedReplies(d, s)
        ensures CheckReply(d, after, seen, p) == Verified
      {
        assert p in d.replies;
        ContainsMatches(after, p.target, Marker(d, p));
      }
      forall p | p in OpeningsSent(d, s, w).acked + SkippedOpenings(d, s, w.listed * s.threads)
        ensures Found(after, seen, Marker(d, p))
      {
        assert p in d.openings;
      }
    }
  }

  /** A write that is refused, or whose response is lost, is on the failed list, and one whose thread is gone. */
  lemma {:induction false} FailedExactly(d: Draft, sent: Sent, p: Post, o: Outcome)
    ensures var after := SendReply(d, sent, p, o);
            && (after.failed == if o.Acked? && p.target in sent.server.threads then sent.failed else sent.failed + [p])
            && (after.server.notes
                == if o.Refused? || p.target !in sent.server.threads then sent.server.notes
                   else sent.server.notes + [Note(p.target, Written(d, p))])
  {
    NoteIsWritten(d, p);
  }

  /** And so is a new thread. */
  lemma {:induction false} OpeningFailsExactly(d: Draft, sent: Sent, p: Post, o: Outcome, id: string)
    ensures var after := SendOpening(d, sent, p, o, id);
            && (after.failed == if o.Acked? && id !in sent.server.threads then sent.failed else sent.failed + [p])
            && (after.server
                == if o.Refused? || id in sent.server.threads then sent.server
                   else Server(sent.server.threads + {id}, sent.server.notes + [Note(id, Written(d, p))]))
  {
    NoteIsWritten(d, p);
  }
}
