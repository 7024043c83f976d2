/**
 Which run a CI watch names, for what, and in which round (mcp/ground-control/lib/ci-watcher.js): every
 verdict of the poll loop, told by the rounds alone and not by the loop's state.
 */
module CiBlame {
  import opened Wrappers
  import opened CiWatcher
  import opened CiVerdicts

  // ---- what a snapshot says ------------------------------------------------------------------

  /** The run has failed, or one of its jobs has, whether or not the run is done. */
  ghost predicate Failing(s: Snapshot) {
    || s.conclusion == "failure" || s.conclusion == "cancelled" || s.conclusion == "timed_out"
    || s.conclusion == "action_required" || s.conclusion == "startup_failure"
    || exists job :: job in s.jobs
         && (job.conclusion == "failure" || job.conclusion == "timed_out" || job.conclusion == "cancelled")
  }

  predicate Done(s: Snapshot) {
    s.status == "completed"
  }

  /** Queued, and no job runs or has finished with a result. */
  ghost predicate WaitsForRunner(s: Snapshot) {
    && (s.status == "queued" || s.status == "pending" || s.status == "waiting")
    && forall job :: job in s.jobs ==>
         job.status != "in_progress" && (job.status == "completed" ==> job.conclusion == "skipped")
  }

  /** A run waits since its attempt started, else since it was created, else since it was first seen waiting. */
  function Since(s: Snapshot, firstSeen: int): int {
    if s.startedMs.Some? && s.startedMs.value > 0 then s.startedMs.value
    else if s.createdMs.Some? && s.createdMs.value > 0 then s.createdMs.value
    else firstSeen
  }

  // ---- what the rounds say ------------------------------------------------------------------------

  /** The registration window closed with an earlier round, or was never open. */
  ghost predicate ClosedBefore(w: Watch, l: Loop, rounds: seq<PollRound>, k: nat)
    requires k <= |rounds|
  {
    l.closed || exists i :: 0 <= i < k && rounds[i].before >= w.deadlineMs
  }

  /** The ids watched once `k` rounds have listed. */
  ghost function WatchedAfter(w: Watch, l: Loop, rounds: seq<PollRound>, k: nat): seq<int>
    requires k <= |rounds|
  {
    if k == 0 then l.watched
    else
      var before := WatchedAfter(w, l, rounds, k - 1);
      if ClosedBefore(w, l, rounds, k - 1) || rounds[k - 1].listing.None? then before
      else Merge(before, ListedIds(rounds[k - 1].listing.value, w.head.GetOr("")))
  }

  /** A merge adds the new ids at the end, each once, and nothing else. */
  lemma {:induction false} MergeAddsTheNew(watched: seq<int>, ids: seq<int>)
    ensures forall id :: id in Merge(watched, ids) <==> id in watched || id in ids
    ensures forall i, j :: |watched| <= i < j < |Merge(watched, ids)| ==>
          Merge(watched, ids)[i] != Merge(watched, ids)[j]
    ensures forall i :: |watched| <= i < |Merge(watched, ids)| ==> Merge(watched, ids)[i] !in watched
    decreases |ids|
  {
    if ids != [] {
      MergeAddsTheNew(watched, ids[..|ids| - 1]);
      assert forall id :: id in ids <==> id in ids[..|ids| - 1] || id == ids[|ids| - 1];
    }
  }

  /** The sweep of round `k` saw exactly the watched runs, none of them on another head. */
  ghost predicate Sees(w: Watch, l: Loop, rounds: seq<PollRound>, k: nat, runs: seq<Observed>)
    requires k < |rounds|
  {
    var ids := WatchedAfter(w, l, rounds, k + 1);
    && |runs| == |ids|
    && forall i :: 0 <= i < |ids| ==>
         && rounds[k].fetch(i) == Some(runs[i].snapshot) && runs[i].id == ids[i]
         && (w.head.Some? && runs[i].snapshot.headSha.Some? ==> runs[i].snapshot.headSha == w.head)
  }

  /** Some run with this id waited for a runner when round `k` looked. */
  ghost predicate SeenWaiting(w: Watch, l: Loop, rounds: seq<PollRound>, k: nat, id: int)
    requires k < |rounds|
  {
    var ids := WatchedAfter(w, l, rounds, k + 1);
    exists i :: 0 <= i < |ids| && ids[i] == id && rounds[k].fetch(i).Some? && WaitsForRunner(rounds[k].fetch(i).value)
  }

  /** The clock of the first of `k` rounds that saw the id waiting. */
  ghost function FirstSeen(w: Watch, l: Loop, rounds: seq<PollRound>, k: nat, id: int): Option<int>
    requires k <= |rounds|
  {
    if k == 0 then None
    else if FirstSeen(w, l, rounds, k - 1, id).Some? then FirstSeen(w, l, rounds, k - 1, id)
    else if SeenWaiting(w, l, rounds, k - 1, id) then Some(rounds[k - 1].now) else None
  }

  /** A pending run that has waited for its first runner for more than the bound. */
  ghost predicate Stuck(w: Watch, l: Loop, rounds: seq<PollRound>, k: nat, o: Observed)
    requires k < |rounds|
  {
    && WaitsForRunner(o.snapshot)
    && rounds[k].now - Since(o.snapshot, FirstSeen(w, l, rounds, k, o.id).GetOr(rounds[k].now))
         >= (w.q.queuedTimeout + 1) * 1000
  }

  predicate OverCap(w: Watch, round: PollRound) {
    round.now - w.startMs >= (w.q.totalTimeout + 1) * 1000
  }

  ghost predicate IsFirst(runs: seq<Observed>, run: Observed, holds: Observed -> bool) {
    exists i :: 0 <= i < |runs| && runs[i] == run && holds(run) && forall j :: 0 <= j < i ==> !holds(runs[j])
  }

  // ---- judging the pending runs ---------------------------------------------------------------------

  lemma WaitingIsQueued(s: Snapshot, nowMs: int, first: int)
    ensures QueuedSeconds(s, nowMs, first).Some? <==> WaitsForRunner(s)
    ensures IsQueuedStatus(s.status) ==> !Done(s)
  {
  }

  /** The first sighting that judging goes by: an earlier one, or this round's. */
  function SeenAt(firstQueued: map<int, int>, id: int, nowMs: int): int {
    if id in firstQueued then firstQueued[id] else nowMs
  }

  /** What the map of first sightings holds after judging some runs. */
  ghost predicate Notes(firstQueued: map<int, int>, nowMs: int, runs: seq<Observed>, after: map<int, int>) {
    && (forall id ::
           id in after <==> id in firstQueued || exists o :: o in runs && o.id == id && WaitsForRunner(o.snapshot))
    && forall id :: id in after ==> after[id] == SeenAt(firstQueued, id, nowMs)
  }

  ghost predicate WaitedTooLong(q: Request, nowMs: int, firstQueued: map<int, int>, o: Observed) {
    WaitsForRunner(o.snapshot)
    && nowMs - Since(o.snapshot, SeenAt(firstQueued, o.id, nowMs)) >= (q.queuedTimeout + 1) * 1000
  }

  lemma SecondsPass(a: int, bound: int)
    requires bound >= 0
    ensures (if a < 0 then 0 else a / 1000) > bound <==> a >= (bound + 1) * 1000
    ensures a / 1000 > bound <==> a >= (bound + 1) * 1000
  {
  }

  /** One pending run, judged by the map as it has grown in this round. */
  lemma JudgeOneMeaning(q: Request, elapsed: int, nowMs: int, firstQueued: map<int, int>, before: Judgement,
                        run: Observed)
    requires q.queuedTimeout > 0 && !Done(run.snapshot)
    requires forall id :: id in before.firstQueued ==> before.firstQueued[id] == SeenAt(firstQueued, id, nowMs)
    requires forall id :: id in firstQueued ==> id in before.firstQueued
    ensures var j := JudgeOne(q, elapsed, nowMs, before, run);
      && j.firstQueued == (if WaitsForRunner(run.snapshot) && run.id !in before.firstQueued
                           then before.firstQueued[run.id := nowMs] else before.firstQueued)
      && (if WaitedTooLong(q, nowMs, firstQueued, run) then j.queuedTooLong == Some(run)
          else if elapsed > q.totalTimeout then
            j.queuedTooLong.None? && j.timedOut == (if before.timedOut.Some? then before.timedOut else Some(run))
          else j.queuedTooLong == before.queuedTooLong && j.timedOut == before.timedOut)
  {
    var seen := if run.id in before.firstQueued then before.firstQueued[run.id] else nowMs;
    WaitingIsQueued(run.snapshot, nowMs, seen);
    assert seen == SeenAt(firstQueued, run.id, nowMs);
    SecondsPass(nowMs - Since(run.snapshot, seen), q.queuedTimeout);
  }

  ghost predicate NoneWaitedTooLong(q: Request, nowMs: int, firstQueued: map<int, int>, runs: seq<Observed>) {
    forall o :: o in runs ==> !WaitedTooLong(q, nowMs, firstQueued, o)
  }

  /**
   Judging finds the first run that waited too long; if there is none, the first pending run once the cap
   has passed; and notes the sightings if it goes on.
   */
  lemma {:induction false} JudgeMeaning(q: Request, elapsed: int, nowMs: int, firstQueued: map<int, int>,
                                        pending: seq<Observed>)
    requires q.queuedTimeout > 0 && forall o :: o in pending ==> !Done(o.snapshot)
    ensures var j := Judge(q, elapsed, nowMs, firstQueued, pending);
      && (j.queuedTooLong.None? <==> NoneWaitedTooLong(q, nowMs, firstQueued, pending))
      && (j.queuedTooLong.Some? ==>
            IsFirst(pending, j.queuedTooLong.value, o => WaitedTooLong(q, nowMs, firstQueued, o)))
      && (j.queuedTooLong.None? ==>
            && j.timedOut == (if pending != [] && elapsed > q.totalTimeout then Some(pending[0]) else None)
            && Notes(firstQueued, nowMs, pending, j.firstQueued))
    decreases |pending|
  {
    if pending != [] {
      var last := |pending| - 1;
      var before := Judge(q, elapsed, nowMs, firstQueued, pending[..last]);
      assert pending == pending[..last] + [pending[last]];
      JudgeMeaning(q, elapsed, nowMs, firstQueued, pending[..last]);
      if before.queuedTooLong.Some? {
        FirstOfPrefix(pending, last, before.queuedTooLong.value, o => WaitedTooLong(q, nowMs, firstQueued, o));
      } else {
        JudgeOneMeaning(q, elapsed, nowMs, firstQueued, before, pending[last]);
        JudgeNext(q, nowMs, firstQueued, pending, before, Judge(q, elapsed, nowMs, firstQueued, pending));
      }
    }
  }

  lemma FirstOfPrefix(runs: seq<Observed>, n: nat, run: Observed, holds: Observed -> bool)
    requires n <= |runs| && IsFirst(runs[..n], run, holds)
    ensures IsFirst(runs, run, holds) && run in runs && holds(run)
  {
    var i :| 0 <= i < n && runs[..n][i] == run && holds(run) && forall j :: 0 <= j < i ==> !holds(runs[..n][j]);
    assert runs[i] == run;
    forall j | 0 <= j < i ensures !holds(runs[j]) {
      assert runs[j] == runs[..n][j];
    }
  }

  lemma JudgeNext(q: Request, nowMs: int, firstQueued: map<int, int>, pending: seq<Observed>, before: Judgement,
                  after: Judgement)
    requires pending != [] && NoneWaitedTooLong(q, nowMs, firstQueued, pending[..|pending| - 1])
    requires Notes(firstQueued, nowMs, pending[..|pending| - 1], before.firstQueued)
    requires var run := pending[|pending| - 1];
      after.firstQueued == if WaitsForRunner(run.snapshot) && run.id !in before.firstQueued
                           then before.firstQueued[run.id := nowMs] else before.firstQueued
    ensures Notes(firstQueued, nowMs, pending, after.firstQueued)
    ensures var run := pending[|pending| - 1];
      if WaitedTooLong(q, nowMs, firstQueued, run)
      then IsFirst(pending, run, o => WaitedTooLong(q, nowMs, firstQueued, o))
      else NoneWaitedTooLong(q, nowMs, firstQueued, pending)
  {
    var last := |pending| - 1;
    assert pending == pending[..last] + [pending[last]];
    if WaitedTooLong(q, nowMs, firstQueued, pending[last]) {
      forall j | 0 <= j < last ensures !WaitedTooLong(q, nowMs, firstQueued, pending[j]) {
        assert pending[j] in pending[..last];
      }
    }
  }

  // ---- one round --------------------------------------------------------------------------------------

  ghost predicate NoneFails(runs: seq<Observed>) {
    forall o :: o in runs ==> !Failing(o.snapshot)
  }

  ghost predicate AllDone(runs: seq<Observed>) {
    forall o :: o in runs ==> Done(o.snapshot)
  }

  ghost predicate NoneStuck(w: Watch, l: Loop, rounds: seq<PollRound>, k: nat, runs: seq<Observed>)
    requires k < |rounds|
  {
    forall o :: o in runs ==> !Stuck(w, l, rounds, k, o)
  }

  /** Round `k` finds nothing to report: everything green in an open window, or runs within their bounds. */
  ghost predicate Quiet(w: Watch, l: Loop, rounds: seq<PollRound>, k: nat)
    requires k < |rounds|
  {
    && (ClosedBefore(w, l, rounds, k) || rounds[k].listing.Some?)
    && exists runs: seq<Observed> ::
         && Sees(w, l, rounds, k, runs) && NoneFails(runs)
         && (if AllDone(runs) then !ClosedBefore(w, l, rounds, k + 1)
             else NoneStuck(w, l, rounds, k, runs) && !OverCap(w, rounds[k]))
  }

  /** The settled set: everything succeeded, or the first run that did not is named with its conclusion. */
  ghost predicate Settles(w: Watch, runs: seq<Observed>, v: Verdict) {
    if forall o :: o in runs ==> o.snapshot.conclusion == "success" then
      v == Success(runs, if w.head.Some? then w.head else if runs == [] then None else runs[0].snapshot.headSha)
    else
      && v.Concluded? && v.runs == runs && IsFirst(runs, v.run, (o: Observed) => o.snapshot.conclusion != "success")
      && v.conclusion == if v.run.snapshot.conclusion == "" then "unknown" else v.run.snapshot.conclusion
  }

  /** What round `k` reports of the runs it saw. */
  ghost predicate Reports(w: Watch, l: Loop, rounds: seq<PollRound>, k: nat, runs: seq<Observed>, v: Verdict)
    requires k < |rounds|
  {
    if !NoneFails(runs) then
      v.Concluded? && v.runs == runs && v.conclusion == "failure"
      && IsFirst(runs, v.run, (o: Observed) => Failing(o.snapshot))
    else if AllDone(runs) then
      ClosedBefore(w, l, rounds, k + 1) && Settles(w, runs, v)
    else if !NoneStuck(w, l, rounds, k, runs) then
      && v.Concluded? && v.runs == runs && v.conclusion == "queued_too_long"
      && IsFirst(runs, v.run, (o: Observed) => Stuck(w, l, rounds, k, o))
    else
      && OverCap(w, rounds[k]) && v.Concluded? && v.runs == runs && v.conclusion == "timed_out"
      && IsFirst(runs, v.run, (o: Observed) => !Done(o.snapshot))
  }

  ghost predicate SeesBelow(w: Watch, ids: seq<int>, round: PollRound, n: nat) {
    forall i :: 0 <= i < n && i < |ids| ==>
      && round.fetch(i).Some?
      && (w.head.Some? && round.fetch(i).value.headSha.Some? ==> round.fetch(i).value.headSha == w.head)
  }

  /** The first watched run that cannot be fetched or is on another head refuses the watch. */
  ghost predicate RefusesSweep(w: Watch, ids: seq<int>, round: PollRound, e: Error) {
    exists i ::
      && 0 <= i < |ids| && SeesBelow(w, ids, round, i) && !SeesBelow(w, ids, round, i + 1)
      && e == if round.fetch(i).None? then SnapshotFailed(ids[i]) else RunHeadMismatch(ids[i])
  }

  /** How round `k` ends the watch. */
  ghost predicate EndsWith(w: Watch, l: Loop, rounds: seq<PollRound>, k: nat, v: Verdict)
    requires k < |rounds|
  {
    if !ClosedBefore(w, l, rounds, k) && rounds[k].listing.None? then v == Refused(RunLookupFailed)
    else
      || (v.Refused? && RefusesSweep(w, WatchedAfter(w, l, rounds, k + 1), rounds[k], v.error))
      || ((v.Success? || v.Concluded?) && Sees(w, l, rounds, k, v.runs) && Reports(w, l, rounds, k, v.runs, v))
  }

  // ---- the loop's state follows the rounds --------------------------------------------------------------

  ghost predicate Tracks(w: Watch, l: Loop, rounds: seq<PollRound>, k: nat, at: Loop)
    requires k <= |rounds|
  {
    && at.watched == WatchedAfter(w, l, rounds, k)
    && (at.closed <==> ClosedBefore(w, l, rounds, k))
    && forall id :: FirstSeen(w, l, rounds, k, id) == if id in at.firstQueued then Some(at.firstQueued[id]) else None
  }

  lemma {:induction false} SweepMeaning(w: Watch, ids: seq<int>, round: PollRound)
    ensures match Sweep(ids, round.fetch, w.head)
      case Ok(runs) =>
        && |runs| == |ids| && SeesBelow(w, ids, round, |ids|)
        && forall i :: 0 <= i < |ids| ==> round.fetch(i) == Some(runs[i].snapshot) && runs[i].id == ids[i]
      case Err(e) => RefusesSweep(w, ids, round, e)
    decreases |ids|
  {
    if ids != [] {
      var last := |ids| - 1;
      SweepMeaning(w, ids[..last], round);
      if Sweep(ids[..last], round.fetch, w.head).Ok? {
        assert SeesBelow(w, ids, round, last);
        if Sweep(ids, round.fetch, w.head).Err? {
          assert !SeesBelow(w, ids, round, last + 1);
        }
      } else {
        var e := Sweep(ids[..last], round.fetch, w.head).error;
        var i :| 0 <= i < last && SeesBelow(w, ids[..last], round, i) && !SeesBelow(w, ids[..last], round, i + 1)
          && e == if round.fetch(i).None? then SnapshotFailed(ids[..last][i]) else RunHeadMismatch(ids[..last][i]);
        assert SeesBelow(w, ids, round, i) && !SeesBelow(w, ids, round, i + 1);
      }
    }
  }

  lemma RelistFollows(w: Watch, l: Loop, rounds: seq<PollRound>, k: nat, at: Loop)
    requires k < |rounds| && Tracks(w, l, rounds, k, at)
    ensures Relist(w, at, rounds[k]).None? <==> !ClosedBefore(w, l, rounds, k) && rounds[k].listing.None?
    ensures Relist(w, at, rounds[k]).Some? ==>
      var listed := Relist(w, at, rounds[k]).value;
      && listed.watched == WatchedAfter(w, l, rounds, k + 1) && listed.firstQueued == at.firstQueued
      && (listed.closed <==> ClosedBefore(w, l, rounds, k + 1))
  {
  }

  lemma {:induction false} FirstMatchIsFirst(runs: seq<Observed>, matches: Observed -> bool)
    ensures match FirstMatch(runs, matches)
      case Some(run) => IsFirst(runs, run, matches)
      case None => forall o :: o in runs ==> !matches(o)
  {
    if runs != [] && !matches(runs[0]) {
      FirstMatchIsFirst(runs[1..], matches);
      if FirstMatch(runs, matches).Some? {
        FirstOfRest(runs, FirstMatch(runs, matches).value, matches);
      }
    }
  }

  lemma FirstOfRest(runs: seq<Observed>, run: Observed, holds: Observed -> bool)
    requires runs != [] && !holds(runs[0]) && IsFirst(runs[1..], run, holds)
    ensures IsFirst(runs, run, holds)
  {
    var rest := runs[1..];
    var i :| 0 <= i < |rest| && rest[i] == run && holds(run) && forall j :: 0 <= j < i ==> !holds(rest[j]);
    assert runs[i + 1] == run;
    forall j | 0 <= j < i + 1 ensures !holds(runs[j]) {
      if j > 0 {
        assert runs[j] == rest[j - 1];
      }
    }
  }

  lemma SameFirst(runs: seq<Observed>, run: Observed, p: Observed -> bool, q: Observed -> bool)
    requires IsFirst(runs, run, p) && forall o :: o in runs ==> p(o) == q(o)
    ensures IsFirst(runs, run, q)
  {
    var i :| 0 <= i < |runs| && runs[i] == run && p(run) && forall j :: 0 <= j < i ==> !p(runs[j]);
    forall j | 0 <= j < i ensures !q(runs[j]) {
      assert runs[j] in runs;
    }
  }

  lemma {:induction false} PendingMembers(runs: seq<Observed>)
    ensures forall o :: o in Pending(runs) <==> o in runs && !Done(o.snapshot)
    ensures Pending(runs) == [] <==> AllDone(runs)
  {
    if runs != [] {
      PendingMembers(runs[1..]);
      assert runs == [runs[0]] + runs[1..];
    }
  }

  /** The first pending run with a property only pending runs have is the first run with it. */
  lemma {:induction false} FirstPending(runs: seq<Observed>, run: Observed, holds: Observed -> bool)
    requires IsFirst(Pending(runs), run, holds) && forall o :: holds(o) ==> !Done(o.snapshot)
    ensures IsFirst(runs, run, holds)
  {
    var rest := runs[1..];
    if Done(runs[0].snapshot) {
      assert Pending(runs) == Pending(rest);
      FirstPending(rest, run, holds);
      FirstOfRest(runs, run, holds);
    } else if !holds(runs[0]) {
      assert Pending(runs) == [runs[0]] + Pending(rest);
      DropFirst(Pending(runs), Pending(rest), run, holds);
      FirstPending(rest, run, holds);
      FirstOfRest(runs, run, holds);
    } else {
      assert Pending(runs)[0] == runs[0];
    }
  }

  lemma DropFirst(runs: seq<Observed>, rest: seq<Observed>, run: Observed, holds: Observed -> bool)
    requires runs != [] && rest == runs[1..] && !holds(runs[0]) && IsFirst(runs, run, holds)
    ensures IsFirst(rest, run, holds)
  {
    var i :| 0 <= i < |runs| && runs[i] == run && holds(run) && forall j :: 0 <= j < i ==> !holds(runs[j]);
    assert rest[i - 1] == run;
    forall j | 0 <= j < i - 1 ensures !holds(rest[j]) {
      assert rest[j] == runs[j + 1];
    }
  }

  lemma SeenIsPending(w: Watch, l: Loop, rounds: seq<PollRound>, k: nat, runs: seq<Observed>, id: int)
    requires k < |rounds| && Sees(w, l, rounds, k, runs)
    ensures SeenWaiting(w, l, rounds, k, id)
      <==> exists o :: o in Pending(runs) && o.id == id && WaitsForRunner(o.snapshot)
  {
    PendingMembers(runs);
    var ids := WatchedAfter(w, l, rounds, k + 1);
    if SeenWaiting(w, l, rounds, k, id) {
      var i :| 0 <= i < |ids| && ids[i] == id && rounds[k].fetch(i).Some? && WaitsForRunner(rounds[k].fetch(i).value);
      assert runs[i] in runs && runs[i].id == id;
    }
    if o :| o in Pending(runs) && o.id == id && WaitsForRunner(o.snapshot) {
      var i :| 0 <= i < |runs| && runs[i] == o;
      assert ids[i] == id && rounds[k].fetch(i) == Some(o.snapshot);
    }
  }

  /** The relisted loop of round `k`. */
  ghost predicate Relisted(w: Watch, l: Loop, rounds: seq<PollRound>, k: nat, at: Loop)
    requires k < |rounds|
  {
    && at.watched == WatchedAfter(w, l, rounds, k + 1)
    && (at.closed <==> ClosedBefore(w, l, rounds, k + 1))
    && forall id :: FirstSeen(w, l, rounds, k, id) == if id in at.firstQueued then Some(at.firstQueued[id]) else None
  }

  lemma NotesFollow(w: Watch, l: Loop, rounds: seq<PollRound>, k: nat, at: Loop, runs: seq<Observed>,
                    after: map<int, int>)
    requires k < |rounds| && Sees(w, l, rounds, k, runs) && Relisted(w, l, rounds, k, at)
    requires Notes(at.firstQueued, rounds[k].now, Pending(runs), after)
    ensures Tracks(w, l, rounds, k + 1, at.(firstQueued := after))
  {
    forall id ensures FirstSeen(w, l, rounds, k + 1, id) == if id in after then Some(after[id]) else None {
      SeenIsPending(w, l, rounds, k, runs, id);
    }
  }

  lemma ActionableIsFailing(o: Observed)
    ensures IsActionable(o) <==> Failing(o.snapshot)
  {
  }

  lemma FailureIsReported(w: Watch, l: Loop, rounds: seq<PollRound>, k: nat, at: Loop, runs: seq<Observed>)
    requires k < |rounds|
    ensures FirstMatch(runs, IsActionable).None? <==> NoneFails(runs)
    ensures FirstMatch(runs, IsActionable).Some? ==>
      Reports(w, l, rounds, k, runs, Concluded(FirstMatch(runs, IsActionable).value, "failure", runs))
  {
    FirstMatchIsFirst(runs, IsActionable);
    forall o ensures IsActionable(o) <==> Failing(o.snapshot) {
      ActionableIsFailing(o);
    }
    if FirstMatch(runs, IsActionable).Some? {
      SameFirst(runs, FirstMatch(runs, IsActionable).value, IsActionable, (o: Observed) => Failing(o.snapshot));
    }
  }

  /** Once nothing fails, no conclusion is "failure", so the first run that did not succeed is named. */
  lemma SettledIsReported(w: Watch, runs: seq<Observed>)
    requires NoneFails(runs)
    ensures Settles(w, runs, Conclude(runs, w.head))
      && (Conclude(runs, w.head).Success? || Conclude(runs, w.head).Concluded?)
    ensures Conclude(runs, w.head).runs == runs
  {
    FirstMatchIsFirst(runs, IsNonSuccess);
    FirstMatchIsFirst(runs, HasFailureConclusion);
    if FirstMatch(runs, IsNonSuccess).Some? {
      var first := FirstMatch(runs, IsNonSuccess).value;
      assert FirstMatch(runs, HasFailureConclusion).None?;
      SameFirst(runs, first, IsNonSuccess, (o: Observed) => o.snapshot.conclusion != "success");
      assert first in runs;
    }
  }

  lemma StuckIsWaited(w: Watch, l: Loop, rounds: seq<PollRound>, k: nat, at: Loop, o: Observed)
    requires k < |rounds| && Relisted(w, l, rounds, k, at)
    ensures Stuck(w, l, rounds, k, o) <==> WaitedTooLong(w.q, rounds[k].now, at.firstQueued, o)
  {
    assert FirstSeen(w, l, rounds, k, o.id).GetOr(rounds[k].now) == SeenAt(at.firstQueued, o.id, rounds[k].now);
  }

  lemma NoneStuckIffNoneWaited(w: Watch, l: Loop, rounds: seq<PollRound>, k: nat, at: Loop, runs: seq<Observed>)
    requires k < |rounds| && Relisted(w, l, rounds, k, at)
    ensures NoneStuck(w, l, rounds, k, runs) <==> NoneWaitedTooLong(w.q, rounds[k].now, at.firstQueued, Pending(runs))
  {
    PendingMembers(runs);
    forall o ensures Stuck(w, l, rounds, k, o) <==> WaitedTooLong(w.q, rounds[k].now, at.firstQueued, o) {
      StuckIsWaited(w, l, rounds, k, at, o);
    }
    forall o | Stuck(w, l, rounds, k, o) ensures !Done(o.snapshot) {
    }
  }

  lemma StuckIsReported(w: Watch, l: Loop, rounds: seq<PollRound>, k: nat, at: Loop, runs: seq<Observed>, run: Observed)
    requires k < |rounds| && Relisted(w, l, rounds, k, at) && NoneFails(runs) && !AllDone(runs)
    requires IsFirst(Pending(runs), run, o => WaitedTooLong(w.q, rounds[k].now, at.firstQueued, o))
    ensures Reports(w, l, rounds, k, runs, Concluded(run, "queued_too_long", runs))
  {
    var fq, now := at.firstQueued, rounds[k].now;
    FirstPending(runs, run, o => WaitedTooLong(w.q, now, fq, o));
    forall o ensures Stuck(w, l, rounds, k, o) <==> WaitedTooLong(w.q, now, fq, o) {
      StuckIsWaited(w, l, rounds, k, at, o);
    }
    SameFirst(runs, run, o => WaitedTooLong(w.q, now, fq, o), (o: Observed) => Stuck(w, l, rounds, k, o));
    assert run in runs && Stuck(w, l, rounds, k, run);
  }

  lemma FirstPendingIsFirst(runs: seq<Observed>)
    requires !AllDone(runs)
    ensures Pending(runs) != [] && IsFirst(runs, Pending(runs)[0], (o: Observed) => !Done(o.snapshot))
  {
    PendingMembers(runs);
    var first := Pending(runs)[0];
    assert first in Pending(runs);
    assert IsFirst(Pending(runs), first, (o: Observed) => !Done(o.snapshot));
    FirstPending(runs, first, (o: Observed) => !Done(o.snapshot));
  }

  lemma CapIsSeconds(w: Watch, round: PollRound)
    requires w.q.totalTimeout > 0
    ensures Elapsed(w, round.now) > w.q.totalTimeout <==> OverCap(w, round)
  {
    SecondsPass(round.now - w.startMs, w.q.totalTimeout);
  }

  /** Judging a round with pending runs and no failure. */
  lemma PendingIsReported(w: Watch, l: Loop, rounds: seq<PollRound>, k: nat, at: Loop, runs: seq<Observed>)
    requires k < |rounds| && Sees(w, l, rounds, k, runs) && Relisted(w, l, rounds, k, at)
    requires w.q.queuedTimeout > 0 && w.q.totalTimeout > 0 && NoneFails(runs) && !AllDone(runs)
    requires ClosedBefore(w, l, rounds, k) || rounds[k].listing.Some?
    ensures var j := Judge(w.q, Elapsed(w, rounds[k].now), rounds[k].now, at.firstQueued, Pending(runs));
      if j.queuedTooLong.Some? then
        Reports(w, l, rounds, k, runs, Concluded(j.queuedTooLong.value, "queued_too_long", runs))
      else if j.timedOut.Some? then Reports(w, l, rounds, k, runs, Concluded(j.timedOut.value, "timed_out", runs))
      else Quiet(w, l, rounds, k) && Tracks(w, l, rounds, k + 1, at.(firstQueued := j.firstQueued))
  {
    var now, elapsed := rounds[k].now, Elapsed(w, rounds[k].now);
    var j := Judge(w.q, elapsed, now, at.firstQueued, Pending(runs));
    PendingMembers(runs);
    JudgeMeaning(w.q, elapsed, now, at.firstQueued, Pending(runs));
    NoneStuckIffNoneWaited(w, l, rounds, k, at, runs);
    CapIsSeconds(w, rounds[k]);
    FirstPendingIsFirst(runs);
    if j.queuedTooLong.Some? {
      StuckIsReported(w, l, rounds, k, at, runs, j.queuedTooLong.value);
    } else if j.timedOut.None? {
      NotesFollow(w, l, rounds, k, at, runs, j.firstQueued);
    }
  }

  lemma DoneSeesNobodyWaiting(w: Watch, l: Loop, rounds: seq<PollRound>, k: nat, at: Loop, runs: seq<Observed>)
    requires k < |rounds| && Sees(w, l, rounds, k, runs) && Relisted(w, l, rounds, k, at) && AllDone(runs)
    ensures Tracks(w, l, rounds, k + 1, at)
  {
    PendingMembers(runs);
    NotesFollow(w, l, rounds, k, at, runs, at.firstQueued);
    assert at.(firstQueued := at.firstQueued) == at;
  }

  lemma JudgedRound(w: Watch, l: Loop, rounds: seq<PollRound>, k: nat, at: Loop, runs: seq<Observed>)
    requires k < |rounds| && Sees(w, l, rounds, k, runs) && Relisted(w, l, rounds, k, at)
    requires w.q.queuedTimeout > 0 && w.q.totalTimeout > 0
    requires ClosedBefore(w, l, rounds, k) || rounds[k].listing.Some?
    ensures match JudgeSweep(w, at, runs, rounds[k].now)
      case Ended(v) => (v.Success? || v.Concluded?) && v.runs == runs && Reports(w, l, rounds, k, runs, v)
      case Slept(_, next) => Quiet(w, l, rounds, k) && Tracks(w, l, rounds, k + 1, next)
  {
    FailureIsReported(w, l, rounds, k, at, runs);
    PendingMembers(runs);
    if NoneFails(runs) {
      if AllDone(runs) {
        SettledIsReported(w, runs);
        DoneSeesNobodyWaiting(w, l, rounds, k, at, runs);
      } else {
        PendingIsReported(w, l, rounds, k, at, runs);
      }
    }
  }

  lemma RoundMeaning(w: Watch, l: Loop, rounds: seq<PollRound>, k: nat, at: Loop)
    requires k < |rounds| && Tracks(w, l, rounds, k, at) && w.q.queuedTimeout > 0 && w.q.totalTimeout > 0
    ensures match TakeTurn(w, at, rounds[k])
      case Ended(v) => EndsWith(w, l, rounds, k, v)
      case Slept(_, next) => Quiet(w, l, rounds, k) && Tracks(w, l, rounds, k + 1, next)
  {
    RelistFollows(w, l, rounds, k, at);
    if Relist(w, at, rounds[k]).Some? {
      var listed := Relist(w, at, rounds[k]).value;
      SweepMeaning(w, listed.watched, rounds[k]);
      var swept := Sweep(listed.watched, rounds[k].fetch, w.head);
      if swept.Ok? {
        JudgedRound(w, l, rounds, k, listed, swept.value);
      }
    }
  }

  // ---- the main result --------------------------------------------------------------------------------------

  ghost predicate AllQuiet(w: Watch, l: Loop, rounds: seq<PollRound>, k: nat)
    requires k <= |rounds|
  {
    forall i :: 0 <= i < k ==> Quiet(w, l, rounds, i)
  }

  /** The first `k` rounds had nothing to report, and round `k` ends the watch with `v`; or nobody ended it. */
  ghost predicate EndsAt(w: Watch, l: Loop, rounds: seq<PollRound>, k: nat, v: Verdict)
    requires k <= |rounds|
  {
    && AllQuiet(w, l, rounds, k)
    && if k == |rounds| then v == Unfinished else EndsWith(w, l, rounds, k, v)
  }

  ghost predicate Reported(w: Watch, l: Loop, rounds: seq<PollRound>, v: Verdict) {
    exists k: nat :: k <= |rounds| && EndsAt(w, l, rounds, k, v)
  }

  lemma PollStep(w: Watch, rounds: seq<PollRound>, k: nat, at: Loop)
    requires k < |rounds|
    ensures PollAll(w, at, rounds[k..]) == match TakeTurn(w, at, rounds[k])
      case Ended(v) => v
      case Slept(_, next) => PollAll(w, next, rounds[k + 1..])
  {
    assert rounds[k..][0] == rounds[k] && rounds[k..][1..] == rounds[k + 1..];
  }

  /** From a loop state that follows the rounds, the verdict comes from some round on. */
  lemma {:induction false} PollFrom(w: Watch, l: Loop, rounds: seq<PollRound>, k: nat, at: Loop, v: Verdict)
    returns (end: nat)
    requires k <= |rounds| && Tracks(w, l, rounds, k, at) && w.q.queuedTimeout > 0 && w.q.totalTimeout > 0
    requires AllQuiet(w, l, rounds, k) && v == PollAll(w, at, rounds[k..])
    ensures end <= |rounds| && EndsAt(w, l, rounds, end, v)
    decreases |rounds| - k
  {
    end := k;
    if k < |rounds| {
      RoundMeaning(w, l, rounds, k, at);
      PollStep(w, rounds, k, at);
      var turn := TakeTurn(w, at, rounds[k]);
      if turn.Slept? {
        end := PollFrom(w, l, rounds, k + 1, turn.next, v);
      }
    }
  }

  /**
   The poll loop's verdict is that of the first round with something to report: a refused listing or
   sweep; the first watched run that fails, in a run or a job; a settled closed set; the first run that
   waited too long for a runner, by its own times or the first sighting; or, past the cap and with nobody
   waiting too long, the first pending run.
   */
  lemma PollEndsWithTheFirstReport(w: Watch, l: Loop, rounds: seq<PollRound>)
    requires l.firstQueued == map[] && w.q.queuedTimeout > 0 && w.q.totalTimeout > 0
    ensures Reported(w, l, rounds, PollAll(w, l, rounds))
  {
    assert rounds[0..] == rounds;
    var k := PollFrom(w, l, rounds, 0, l, PollAll(w, l, rounds));
  }

  /** The runs the watch starts with: the pinned one, or those of the listing that ended the first wait. */
  ghost predicate StartsWith(q: Request, world: World, head: Option<string>, l: Loop) {
    if q.runId.Some? then l == Loop([q.runId.value], true, map[])
    else
      var found := Discover(DeadlineMs(q, world), head.GetOr(""), world.discovery);
      found.Found? && found.ids != [] && l == Loop(found.ids, false, map[])
  }

  /** The same of the whole watch, once it is bound to a head and has runs to watch. */
  lemma WatchEndsWithTheFirstReport(q: Request, world: World, l: Loop)
    requires ValidRequest(q) && BindHead(q, world).Ok? && StartsWith(q, world, BindHead(q, world).value, l)
    ensures var w := Watch(q, world.startMs, DeadlineMs(q, world), BindHead(q, world).value);
      Reported(w, l, world.polls, WatchRun(q, world))
  {
    var head := BindHead(q, world).value;
    var w := Watch(q, world.startMs, DeadlineMs(q, world), head);
    if q.runId.None? {
      FoundIdsAreCounted(head.GetOr(""), w.deadlineMs, world.discovery);
    }
    assert WatchRun(q, world) == PollAll(w, l, world.polls);
    PollEndsWithTheFirstReport(w, l, world.polls);
  }

  lemma {:induction false} FoundIdsAreCounted(head: string, deadlineMs: int, rounds: seq<DiscoveryRound>)
    ensures match Discover(deadlineMs, head, rounds)
      case Found(ids, count) => |ids| <= count
      case _ => true
    decreases |rounds|
  {
    if rounds != [] && rounds[0].listing.Some? {
      EveryListedRunCountsIffNumbered(rounds[0].listing.value, head);
      FoundIdsAreCounted(head, deadlineMs, rounds[1..]);
    }
  }

  /** Why a watch is refused before anything is swept. */
  lemma RefusedBeforeSweeping(q: Request, world: World)
    ensures !ValidRequest(q) <==> WatchRun(q, world) == Refused(InputInvalid)
    ensures ValidRequest(q) ==>
      (WatchRun(q, world) == Refused(HeadShaInvalid) <==> q.expectedHead != "" && !IsHeadSha(q.expectedHead))
    ensures ValidRequest(q) ==>
      (WatchRun(q, world) == Refused(HeadShaUnresolved)
       <==> q.expectedHead == "" && q.runId.None? && (world.tip.None? || !IsHeadSha(world.tip.value)))
    ensures ValidRequest(q) && BindHead(q, world).Ok? && q.runId.None? ==>
      var found := Discover(DeadlineMs(q, world), BindHead(q, world).value.GetOr(""), world.discovery);
      && (found.StillWaiting? ==> WatchRun(q, world) == Unfinished)
      && (found.LookupFailed? ==> WatchRun(q, world) == Refused(RunLookupFailed))
      && (found.Found? && found.count == 0 ==> WatchRun(q, world) == Refused(NoRunForHead))
      && (found.Found? && found.count > 0 && found.ids == [] ==> WatchRun(q, world) == Refused(RunLookupFailed))
  {
    if ValidRequest(q) && BindHead(q, world).Ok? {
      var w := Watch(q, world.startMs, DeadlineMs(q, world), BindHead(q, world).value);
      PollNeverRefusesInput(w, Loop([q.runId.GetOr(0)], true, map[]), world.polls);
      var found := Discover(w.deadlineMs, w.head.GetOr(""), world.discovery);
      if found.Found? {
        PollNeverRefusesInput(w, Loop(found.ids, false, map[]), world.polls);
      }
    }
  }

  predicate RefusesInput(v: Verdict) {
    v.Refused?
    && (v.error.InputInvalid? || v.error.HeadShaInvalid? || v.error.HeadShaUnresolved? || v.error.NoRunForHead?)
  }

  lemma TurnNeverRefusesInput(w: Watch, l: Loop, round: PollRound)
    requires TakeTurn(w, l, round).Ended?
    ensures !RefusesInput(TakeTurn(w, l, round).verdict)
  {
    if Relist(w, l, round).Some? {
      SweepMeaning(w, Relist(w, l, round).value.watched, round);
    }
  }

  lemma {:induction false} PollNeverRefusesInput(w: Watch, l: Loop, rounds: seq<PollRound>)
    ensures !RefusesInput(PollAll(w, l, rounds))
    decreases |rounds|
  {
    if rounds != [] {
      var turn := TakeTurn(w, l, rounds[0]);
      if turn.Slept? {
        PollNeverRefusesInput(w, turn.next, rounds[1..]);
      } else {
        TurnNeverRefusesInput(w, l, rounds[0]);
      }
    }
  }

  /**
   The first wait ends with the first listing that names a run of the head, or with the first failed or
   empty one at or past the deadline.
   */
  lemma {:induction false} DiscoveryMeaning(deadlineMs: int, head: string, rounds: seq<DiscoveryRound>, k: nat)
    requires k <= |rounds|
    requires forall i :: 0 <= i < k ==>
      && rounds[i].listing.Some? && rounds[i].clock < deadlineMs
      && forall r :: r in rounds[i].listing.value ==> r.headSha != Some(head)
    ensures k == |rounds| ==> Discover(deadlineMs, head, rounds).StillWaiting?
    ensures k < |rounds| && rounds[k].listing.None? ==> Discover(deadlineMs, head, rounds).LookupFailed?
    ensures (k < |rounds| && rounds[k].listing.Some?
             && (rounds[k].clock >= deadlineMs || exists r :: r in rounds[k].listing.value && r.headSha == Some(head)))
      ==> (Discover(deadlineMs, head, rounds)
           == Found(ListedIds(rounds[k].listing.value, head), ListedCount(rounds[k].listing.value, head)))
    decreases k
  {
    if rounds != [] && rounds[0].listing.Some? {
      CountIsZeroIffNoneListed(rounds[0].listing.value, head);
      if k > 0 {
        DiscoveryMeaning(deadlineMs, head, rounds[1..], k - 1);
      }
    }
  }

  lemma {:induction false} CountIsZeroIffNoneListed(runs: seq<Listed>, head: string)
    ensures ListedCount(runs, head) == 0 <==> forall r :: r in runs ==> r.headSha != Some(head)
  {
    if runs != [] {
      CountIsZeroIffNoneListed(runs[1..], head);
      assert runs == [runs[0]] + runs[1..];
    }
  }

  /** The ids of a listing are the numeric ids of its runs of the head. */
  lemma {:induction false} ListedIdsMeaning(runs: seq<Listed>, head: string, id: int)
    ensures id in ListedIds(runs, head) <==> Listed(Some(id), Some(head)) in runs
  {
    if runs != [] {
      ListedIdsMeaning(runs[1..], head, id);
      assert runs == [runs[0]] + runs[1..];
    }
  }

  // ---- sleeping -------------------------------------------------------------------------------------------

  /**
   Between rounds the loop sleeps the poll interval; over an all-green open window no longer than to its
   deadline, though at least a millisecond.
   */
  lemma SleepMeaning(w: Watch, l: Loop, rounds: seq<PollRound>, k: nat, at: Loop, runs: seq<Observed>)
    requires k < |rounds| && Tracks(w, l, rounds, k, at) && Sees(w, l, rounds, k, runs)
    requires TakeTurn(w, at, rounds[k]).Slept?
    ensures var ms, interval := TakeTurn(w, at, rounds[k]).ms, w.q.pollInterval * 1000;
      var left := w.deadlineMs - rounds[k].now;
      if AllDone(runs) then ms == if interval <= left || interval <= 1 then interval else if left < 1 then 1 else left
      else ms == interval
  {
    RelistFollows(w, l, rounds, k, at);
    var listed := Relist(w, at, rounds[k]).value;
    SweepMeaning(w, listed.watched, rounds[k]);
    var swept := Sweep(listed.watched, rounds[k].fetch, w.head).value;
    assert swept == runs by {
      assert |swept| == |runs|;
      assert forall i :: 0 <= i < |runs| ==> swept[i] == runs[i];
    }
    PendingMembers(runs);
  }
}
