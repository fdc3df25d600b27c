/** `seek_window_start`: a binary search by byte offset over a log of variable-length lines. */
module SeekWindow {
  import opened Wire

  const STOP: nat := 0x10_0000

  /** A line with its newline, and its timestamp if it has a readable one. */
  datatype Line = Line(bytes: nat, time: Option<real>)

  /** The log: every line holds at least one byte. */
  type Log = ls: seq<Line> | forall i :: 0 <= i < |ls| ==> ls[i].bytes > 0

  /** The offset at which line `k` starts; the size of the file for `k` one past the end. */
  function Start(log: Log, k: nat): nat
    requires k <= |log|
  {
    if k == 0 then 0 else Start(log, k - 1) + log[k - 1].bytes
  }

  function FileSize(log: Log): nat { Start(log, |log|) }

  ghost predicate TimeOrdered(log: Log) {
    forall i, j :: 0 <= i < j < |log| && log[i].time.Some? && log[j].time.Some? ==>
      log[i].time.value <= log[j].time.value
  }

  lemma {:induction false} StartGrows(log: Log, i: nat, j: nat)
    requires i <= j <= |log|
    ensures Start(log, i) + (j - i) <= Start(log, j)
  {
    if i < j {
      StartGrows(log, i, j - 1);
    }
  }

  /** The first line that starts after the line an offset falls in: where reading goes on once the
      partial line is dropped. At a line start the whole line is dropped. */
  function LineAfter(log: Log, offset: nat, k: nat): (r: nat)
    requires k <= |log|
    ensures k <= r <= |log|
    decreases |log| - k
  {
    if k == |log| then k
    else if offset < Start(log, k + 1) then k + 1
    else LineAfter(log, offset, k + 1)
  }

  lemma {:induction false} LineAfterIs(log: Log, offset: nat, k: nat)
    requires k <= |log| && Start(log, k) <= offset < FileSize(log)
    ensures var r := LineAfter(log, offset, k);
            k < r && offset < Start(log, r) && Start(log, r - 1) <= offset
    decreases |log| - k
  {
    if k < |log| && offset >= Start(log, k + 1) {
      LineAfterIs(log, offset, k + 1);
    }
  }

  /** The first timestamp at or after line `k`. */
  function NextTime(log: Log, k: nat): Option<real>
    requires k <= |log|
    decreases |log| - k
  {
    if k == |log| then None else if log[k].time.Some? then log[k].time else NextTime(log, k + 1)
  }

  lemma {:induction false} NextTimeIs(log: Log, k: nat)
    requires k <= |log|
    ensures NextTime(log, k).Some? ==>
      exists j :: k <= j < |log| && log[j].time == NextTime(log, k) && forall i :: k <= i < j ==> log[i].time.None?
    ensures NextTime(log, k).None? ==> forall i :: k <= i < |log| ==> log[i].time.None?
    decreases |log| - k
  {
    if k < |log| {
      if log[k].time.Some? {
        assert log[k].time == NextTime(log, k);
      } else {
        NextTimeIs(log, k + 1);
      }
    }
  }

  /** Everything in the window starts past the offset. */
  ghost predicate NothingSkipped(log: Log, cutoff: real, offset: nat) {
    forall k :: 0 <= k < |log| && log[k].time.Some? && log[k].time.value >= cutoff ==> offset <= Start(log, k)
  }

  /** Every timestamped line that starts after the line the offset falls in is in the window. */
  ghost predicate AllInWindow(log: Log, cutoff: real, offset: nat) {
    offset < FileSize(log) ==>
      forall k :: LineAfter(log, offset, 0) <= k < |log| && log[k].time.Some? ==> log[k].time.value >= cutoff
  }

  /** The probe below the cutoff: what it finds is before the window, and so is everything ahead of it. */
  lemma {:induction false} ProbeBefore(log: Log, cutoff: real, mid: nat)
    requires TimeOrdered(log) && mid < FileSize(log)
    requires var t := NextTime(log, LineAfter(log, mid, 0)); t.Some? && t.value < cutoff
    ensures NothingSkipped(log, cutoff, mid)
  {
    var k := LineAfter(log, mid, 0);
    LineAfterIs(log, mid, 0);
    NextTimeIs(log, k);
    var j :| k <= j < |log| && log[j].time == NextTime(log, k) && forall i :: k <= i < j ==> log[i].time.None?;
    forall i | 0 <= i < |log| && log[i].time.Some? && log[i].time.value >= cutoff ensures mid <= Start(log, i) {
      assert i > j;
      StartGrows(log, k, i);
    }
  }

  lemma {:induction false} ProbeWithin(log: Log, cutoff: real, mid: nat)
    requires TimeOrdered(log) && mid < FileSize(log)
    requires var t := NextTime(log, LineAfter(log, mid, 0)); t.None? || t.value >= cutoff
    ensures AllInWindow(log, cutoff, mid)
  {
    var k := LineAfter(log, mid, 0);
    NextTimeIs(log, k);
    forall i | k <= i < |log| && log[i].time.Some? ensures log[i].time.value >= cutoff {
      var j :| k <= j < |log| && log[j].time == NextTime(log, k) && forall l :: k <= l < j ==> log[l].time.None?;
      assert j <= i;
    }
  }

  /** Reads on from line `k` until a line with a timestamp, or the end of the file. */
  method ReadTime(log: Log, k: nat) returns (ts: Option<real>)
    requires k <= |log|
    ensures ts == NextTime(log, k)
  {
    ts := None;
    var i := k;
    while ts.None?
      invariant k <= i <= |log|
      invariant ts.None? ==> NextTime(log, i) == NextTime(log, k)
      invariant ts.Some? ==> ts == NextTime(log, k)
      decreases |log| - i, ts.None?
    {
      if i == |log| {
        break;
      }
      ts := log[i].time;
      i := i + 1;
    }
  }

  /** Drops the partial line at an offset: the line reading resumes at. */
  method DropPartial(log: Log, offset: nat) returns (k: nat)
    requires offset < FileSize(log)
    ensures k == LineAfter(log, offset, 0)
  {
    k := 0;
    var end := 0;
    while end <= offset
      invariant k <= |log| && end == Start(log, k)
      invariant end <= offset ==> LineAfter(log, offset, k) == LineAfter(log, offset, 0)
      invariant end > offset ==> k == LineAfter(log, offset, 0)
      decreases |log| - k
    {
      assert k < |log|;
      end := end + log[k].bytes;
      k := k + 1;
    }
  }

  /** No line of the window is skipped, and at most one megabyte and one line ahead of it is kept. */
  method SeekWindowStart(log: Log, cutoff: real) returns (lo: nat, ghost hi: nat)
    requires TimeOrdered(log)
    ensures NothingSkipped(log, cutoff, lo)
    ensures lo <= hi <= lo + 1048576 && hi <= FileSize(log) && AllInWindow(log, cutoff, hi)
  {
    lo := 0;
    var top := FileSize(log);
    while top - lo > STOP
      invariant 0 <= lo <= top <= FileSize(log)
      invariant NothingSkipped(log, cutoff, lo)
      invariant AllInWindow(log, cutoff, top)
      decreases top - lo
    {
      var mid := (lo + top) / 2;
      var k := DropPartial(log, mid);
      var ts := ReadTime(log, k);
      if ts.None? || ts.value >= cutoff {
        ProbeWithin(log, cutoff, mid);
        top := mid;
      } else {
        ProbeBefore(log, cutoff, mid);
        lo := mid;
      }
    }
    hi := top;
  }
}
