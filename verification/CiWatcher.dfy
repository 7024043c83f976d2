/**
 The CI watcher (mcp/ground-control/lib/ci-watcher.js): bind to one head commit, discover its runs
 until the registration window closes, sweep them until every one is settled, and only then report.
 What GitHub and the clock answer, round by round, is an input; a missing text field is empty.
 */
module CiWatcher {
  import opened Wrappers

  datatype Job = Job(status: string, conclusion: string)

  datatype Snapshot = Snapshot(status: string, conclusion: string, headSha: Option<string>,
                               startedMs: Option<int>, createdMs: Option<int>, jobs: seq<Job>)

  datatype Observed = Observed(id: int, snapshot: Snapshot)

  /** An entry of a run listing; the id may be missing or not a number. */
  datatype Listed = Listed(databaseId: Option<int>, headSha: Option<string>)

  /** What one listing answered: the branch's runs, or a failed lookup. */
  type Listing = Option<seq<Listed>>

  datatype Request = Request(expectedHead: string, runId: Option<int>, queuedTimeout: int, totalTimeout: int,
                             pollInterval: int, registrationTimeout: int)

  /** One round of the first wait: a listing, and the clock read when it was empty. */
  datatype DiscoveryRound = DiscoveryRound(listing: Listing, clock: int)

  /**
   One round of the poll loop: the clock before the listing, the listing, one fetch per watched
   position, the clock after.
   */
  datatype PollRound = PollRound(before: int, listing: Listing, fetch: nat -> Option<Snapshot>, now: int)

  datatype World = World(startMs: int, tip: Option<string>, discovery: seq<DiscoveryRound>, polls: seq<PollRound>)

  datatype Error =
    | InputInvalid | HeadShaInvalid | HeadShaUnresolved | NoRunForHead | RunLookupFailed
    | SnapshotFailed(id: int) | RunHeadMismatch(id: int)

  datatype Verdict =
    | Success(runs: seq<Observed>, head: Option<string>)
    | Concluded(run: Observed, conclusion: string, runs: seq<Observed>)
    | Refused(error: Error)
    | Unfinished

  // ---- selection and aggregation -----------------------------------------------------

  predicate IsHeadSha(s: string) {
    |s| == 40 && forall i :: 0 <= i < 40 ==> '0' <= s[i] <= '9' || 'a' <= s[i] <= 'f'
  }

  /** The numeric ids of the listed runs of the bound head. */
  function ListedIds(runs: seq<Listed>, head: string): seq<int> {
    if runs == [] then []
    else
      (if runs[0].headSha == Some(head) && runs[0].databaseId.Some? then [runs[0].databaseId.value] else [])
      + ListedIds(runs[1..], head)
  }

  function ListedCount(runs: seq<Listed>, head: string): nat {
    if runs == [] then 0 else (if runs[0].headSha == Some(head) then 1 else 0) + ListedCount(runs[1..], head)
  }

  function FirstMatch(runs: seq<Observed>, matches: Observed -> bool): (r: Option<Observed>)
    ensures r.Some? ==> r.value in runs && matches(r.value)
    ensures r.None? ==> forall o :: o in runs ==> !matches(o)
  {
    if runs == [] then None else if matches(runs[0]) then Some(runs[0]) else FirstMatch(runs[1..], matches)
  }

  predicate IsNonSuccess(o: Observed) {
    o.snapshot.conclusion != "success"
  }

  predicate HasFailureConclusion(o: Observed) {
    o.snapshot.conclusion == "failure"
  }

  /** The outcome of a settled set: the first failure if there is one, else the first non-success. */
  function Conclude(runs: seq<Observed>, head: Option<string>): Verdict {
    match FirstMatch(runs, IsNonSuccess)
    case None => Success(runs, if head.Some? then head else if runs == [] then None else runs[0].snapshot.headSha)
    case Some(first) =>
      var failing := FirstMatch(runs, HasFailureConclusion).GetOr(first);
      Concluded(failing, if failing.snapshot.conclusion == "" then "unknown" else failing.snapshot.conclusion, runs)
  }

  // ---- judging one sweep -----------------------------------------------------------------

  predicate IsActionable(o: Observed) {
    || o.snapshot.conclusion in ["failure", "cancelled", "timed_out", "action_required", "startup_failure"]
    || exists j :: j in o.snapshot.jobs && j.conclusion in ["failure", "timed_out", "cancelled"]
  }

  predicate IsQueuedStatus(status: string) {
    status == "queued" || status == "pending" || status == "waiting"
  }

  predicate HasStartedJob(s: Snapshot) {
    exists j :: j in s.jobs && (j.status == "in_progress" || (j.status == "completed" && j.conclusion != "skipped"))
  }

  function Timestamp(ms: Option<int>): Option<int> {
    if ms.Some? && ms.value > 0 then ms else None
  }

  /** Seconds a run has waited for its first runner; none when it is not queued or a job has started. */
  function QueuedSeconds(s: Snapshot, nowMs: int, firstSeenMs: int): Option<int> {
    if !IsQueuedStatus(s.status) || HasStartedJob(s) then None
    else
      var since := Timestamp(s.startedMs).GetOr(Timestamp(s.createdMs).GetOr(firstSeenMs));
      Some(if nowMs < since then 0 else (nowMs - since) / 1000)
  }

  datatype Decision = Complete | QueuedTooLong | TimedOut | Continue

  function Decide(status: string, elapsed: int, queued: Option<int>, q: Request): Decision {
    if status == "completed" then Complete
    else if IsQueuedStatus(status) && queued.Some? && queued.value > q.queuedTimeout then QueuedTooLong
    else if elapsed > q.totalTimeout then TimedOut
    else Continue
  }

  function Pending(runs: seq<Observed>): (r: seq<Observed>)
    ensures r == [] <==> forall o :: o in runs ==> o.snapshot.status == "completed"
    ensures forall o :: o in r ==> o in runs && o.snapshot.status != "completed"
  {
    if runs == [] then [] else (if runs[0].snapshot.status == "completed" then [] else [runs[0]]) + Pending(runs[1..])
  }

  /** How judging the pending runs goes: which ids were first seen queued when, and who is over a cap. */
  datatype Judgement = Judgement(firstQueued: map<int, int>, queuedTooLong: Option<Observed>,
                         timedOut: Option<Observed>)

  function JudgeOne(q: Request, elapsed: int, nowMs: int, j: Judgement, run: Observed): Judgement {
    var seen := if run.id in j.firstQueued then j.firstQueued[run.id] else nowMs;
    var queued := QueuedSeconds(run.snapshot, nowMs, seen);
    var first := if queued.Some? && run.id !in j.firstQueued then j.firstQueued[run.id := nowMs] else j.firstQueued;
    match Decide(run.snapshot.status, elapsed, queued, q)
    case QueuedTooLong => Judgement(first, Some(run), j.timedOut)
    case TimedOut => Judgement(first, None, if j.timedOut.Some? then j.timedOut else Some(run))
    case _ => j.(firstQueued := first)
  }

  function Judge(q: Request, elapsed: int, nowMs: int, firstQueued: map<int, int>, pending: seq<Observed>): Judgement
    decreases |pending|
  {
    if pending == [] then Judgement(firstQueued, None, None)
    else
      var before := Judge(q, elapsed, nowMs, firstQueued, pending[..|pending| - 1]);
      if before.queuedTooLong.Some? then before else JudgeOne(q, elapsed, nowMs, before, pending[|pending| - 1])
  }

  // ---- one round of the poll loop -----------------------------------------------------------

  function Merge(watched: seq<int>, ids: seq<int>): (r: seq<int>)
    ensures watched <= r
    ensures forall id :: id in ids || id in watched ==> id in r
    decreases |ids|
  {
    if ids == [] then watched
    else
      var before := Merge(watched, ids[..|ids| - 1]);
      var last := ids[|ids| - 1];
      assert forall id :: id in ids ==> id in ids[..|ids| - 1] || id == last;
      if last in before then before else before + [last]
  }

  predicate HeadDiffers(head: Option<string>, s: Snapshot) {
    head.Some? && s.headSha.Some? && s.headSha != head
  }

  /** One sweep over the watched runs. */
  function Sweep(ids: seq<int>, fetch: nat -> Option<Snapshot>, head: Option<string>): (r: Result<seq<Observed>, Error>)
    ensures r.Ok? ==> |r.value| == |ids|
    ensures r.Ok? ==> forall i :: 0 <= i < |ids| ==>
      && fetch(i) == Some(r.value[i].snapshot) && r.value[i].id == ids[i] && !HeadDiffers(head, r.value[i].snapshot)
    decreases |ids|
  {
    if ids == [] then Ok([])
    else
      var last := |ids| - 1;
      match Sweep(ids[..last], fetch, head)
      case Err(e) => Err(e)
      case Ok(before) =>
        var snapshot := fetch(last);
        if snapshot.None? then Err(SnapshotFailed(ids[last]))
        else if HeadDiffers(head, snapshot.value) then Err(RunHeadMismatch(ids[last]))
        else Ok(before + [Observed(ids[last], snapshot.value)])
  }

  function Min(a: int, b: int): int {
    if a < b then a else b
  }

  function Max(a: int, b: int): int {
    if a < b then b else a
  }

  /** What the loop knows of the request once it starts polling. */
  datatype Watch = Watch(q: Request, startMs: int, deadlineMs: int, head: Option<string>)

  datatype Loop = Loop(watched: seq<int>, closed: bool, firstQueued: map<int, int>)

  datatype Turn = Ended(verdict: Verdict) | Slept(ms: int, next: Loop)

  /** The watched set and the window after a round's listing; none when the lookup failed. */
  function Relist(w: Watch, l: Loop, round: PollRound): Option<Loop> {
    if l.closed then Some(l)
    else if round.listing.None? then None
    else
      Some(Loop(Merge(l.watched, ListedIds(round.listing.value, w.head.GetOr(""))),
                round.before >= w.deadlineMs, l.firstQueued))
  }

  function Elapsed(w: Watch, nowMs: int): int {
    (nowMs - w.startMs) / 1000
  }

  function JudgeSweep(w: Watch, l: Loop, runs: seq<Observed>, nowMs: int): Turn {
    var failed := FirstMatch(runs, IsActionable);
    var pending := Pending(runs);
    if failed.Some? then Ended(Concluded(failed.value, "failure", runs))
    else if pending == [] then
      if l.closed then Ended(Conclude(runs, w.head))
      else Slept(Min(w.q.pollInterval * 1000, Max(1, w.deadlineMs - nowMs)), l)
    else
      var j := Judge(w.q, Elapsed(w, nowMs), nowMs, l.firstQueued, pending);
      if j.queuedTooLong.Some? then Ended(Concluded(j.queuedTooLong.value, "queued_too_long", runs))
      else if j.timedOut.Some? then Ended(Concluded(j.timedOut.value, "timed_out", runs))
      else Slept(w.q.pollInterval * 1000, l.(firstQueued := j.firstQueued))
  }

  function TakeTurn(w: Watch, l: Loop, round: PollRound): Turn {
    match Relist(w, l, round)
    case None => Ended(Refused(RunLookupFailed))
    case Some(listed) =>
      match Sweep(listed.watched, round.fetch, w.head)
      case Err(e) => Ended(Refused(e))
      case Ok(runs) => JudgeSweep(w, listed, runs, round.now)
  }

  function PollAll(w: Watch, l: Loop, rounds: seq<PollRound>): Verdict
    decreases |rounds|
  {
    if rounds == [] then Unfinished
    else
      match TakeTurn(w, l, rounds[0])
      case Ended(v) => v
      case Slept(_, next) => PollAll(w, next, rounds[1..])
  }

  // ---- the whole watch ------------------------------------------------------------------------

  datatype Discovery = Found(ids: seq<int>, count: nat) | LookupFailed | StillWaiting

  /** Waits for the head's first run, until the registration deadline. */
  function Discover(deadlineMs: int, head: string, rounds: seq<DiscoveryRound>): Discovery
    decreases |rounds|
  {
    if rounds == [] then StillWaiting
    else
      match rounds[0].listing
      case None => LookupFailed
      case Some(runs) =>
        if ListedCount(runs, head) > 0 || deadlineMs - rounds[0].clock <= 0
        then Found(ListedIds(runs, head), ListedCount(runs, head))
        else Discover(deadlineMs, head, rounds[1..])
  }

  predicate ValidRequest(q: Request) {
    && (q.runId.None? || q.runId.value > 0)
    && q.queuedTimeout > 0 && q.totalTimeout > 0 && q.pollInterval > 0 && q.registrationTimeout > 0
  }

  /** The head the watch is bound to before the runs are known. */
  function BindHead(q: Request, world: World): Result<Option<string>, Error> {
    if q.expectedHead != "" then
      if IsHeadSha(q.expectedHead) then Ok(Some(q.expectedHead)) else Err(HeadShaInvalid)
    else if q.runId.Some? then Ok(None)
    else if world.tip.Some? && IsHeadSha(world.tip.value) then Ok(world.tip)
    else Err(HeadShaUnresolved)
  }

  function DeadlineMs(q: Request, world: World): int {
    world.startMs + Min(q.registrationTimeout, q.totalTimeout) * 1000
  }

  function WatchRun(q: Request, world: World): Verdict {
    if !ValidRequest(q) then Refused(InputInvalid)
    else
      match BindHead(q, world)
      case Err(e) => Refused(e)
      case Ok(head) =>
        var w := Watch(q, world.startMs, DeadlineMs(q, world), head);
        if q.runId.Some? then PollAll(w, Loop([q.runId.value], true, map[]), world.polls)
        else
          match Discover(w.deadlineMs, head.GetOr(""), world.discovery)
          case LookupFailed => Refused(RunLookupFailed)
          case StillWaiting => Unfinished
          case Found(ids, count) =>
            if count == 0 then Refused(NoRunForHead)
            else if ids == [] then Refused(RunLookupFailed)
            else PollAll(w, Loop(ids, false, map[]), world.polls)
  }

  // ---- the loops ----------------------------------------------------------------------------------

  method JudgePending(q: Request, elapsed: int, nowMs: int, firstQueued: map<int, int>, pending: seq<Observed>)
    returns (j: Judgement)
    ensures j == Judge(q, elapsed, nowMs, firstQueued, pending)
  {
    j := Judgement(firstQueued, None, None);
    var i := 0;
    while i < |pending|
      invariant 0 <= i <= |pending|
      invariant j == Judge(q, elapsed, nowMs, firstQueued, pending[..i])
      invariant j.queuedTooLong.None?
    {
      assert pending[..i + 1][..i] == pending[..i];
      j := JudgeOne(q, elapsed, nowMs, j, pending[i]);
      i := i + 1;
      if j.queuedTooLong.Some? {
        JudgeStops(q, elapsed, nowMs, firstQueued, pending, i);
        return;
      }
    }
    assert pending[..i] == pending;
  }

  lemma {:induction false} JudgeStops(q: Request, elapsed: int, nowMs: int, firstQueued: map<int, int>,
                                      pending: seq<Observed>, i: nat)
    requires i <= |pending|
    requires Judge(q, elapsed, nowMs, firstQueued, pending[..i]).queuedTooLong.Some?
    ensures Judge(q, elapsed, nowMs, firstQueued, pending) == Judge(q, elapsed, nowMs, firstQueued, pending[..i])
    decreases |pending|
  {
    if i == |pending| {
      assert pending[..i] == pending;
    } else {
      var before := pending[..|pending| - 1];
      assert before[..i] == pending[..i];
      JudgeStops(q, elapsed, nowMs, firstQueued, before, i);
    }
  }

  method SweepRuns(ids: seq<int>, fetch: nat -> Option<Snapshot>, head: Option<string>)
    returns (r: Result<seq<Observed>, Error>)
    ensures r == Sweep(ids, fetch, head)
  {
    var observed: seq<Observed> := [];
    var i := 0;
    while i < |ids|
      invariant 0 <= i <= |ids|
      invariant Sweep(ids[..i], fetch, head) == Ok(observed)
    {
      assert ids[..i + 1][..i] == ids[..i];
      var snapshot := fetch(i);
      if snapshot.None? {
        SweepStops(ids, fetch, head, i + 1);
        return Err(SnapshotFailed(ids[i]));
      }
      if HeadDiffers(head, snapshot.value) {
        SweepStops(ids, fetch, head, i + 1);
        return Err(RunHeadMismatch(ids[i]));
      }
      observed := observed + [Observed(ids[i], snapshot.value)];
      i := i + 1;
    }
    assert ids[..i] == ids;
    r := Ok(observed);
  }

  lemma {:induction false} SweepStops(ids: seq<int>, fetch: nat -> Option<Snapshot>, head: Option<string>, i: nat)
    requires i <= |ids|
    requires Sweep(ids[..i], fetch, head).Err?
    ensures Sweep(ids, fetch, head) == Sweep(ids[..i], fetch, head)
    decreases |ids|
  {
    if i == |ids| {
      assert ids[..i] == ids;
    } else {
      var before := ids[..|ids| - 1];
      assert before[..i] == ids[..i];
      SweepStops(before, fetch, head, i);
    }
  }

  method MergeIds(watched: seq<int>, ids: seq<int>) returns (r: seq<int>)
    ensures r == Merge(watched, ids)
  {
    r := watched;
    var i := 0;
    while i < |ids|
      invariant 0 <= i <= |ids|
      invariant r == Merge(watched, ids[..i])
    {
      assert ids[..i + 1][..i] == ids[..i];
      if ids[i] !in r {
        r := r + [ids[i]];
      }
      i := i + 1;
    }
    assert ids[..i] == ids;
  }

  /** The poll loop, whose state is the watched set, the window flag and the queue clock. */
  method PollRuns(w: Watch, initial: Loop, rounds: seq<PollRound>) returns (v: Verdict)
    ensures v == PollAll(w, initial, rounds)
  {
    var watched, closed, firstQueued := initial.watched, initial.closed, initial.firstQueued;
    var i := 0;
    assert rounds[0..] == rounds;
    while i < |rounds|
      invariant 0 <= i <= |rounds|
      invariant PollAll(w, initial, rounds) == PollAll(w, Loop(watched, closed, firstQueued), rounds[i..])
    {
      var round := rounds[i];
      assert rounds[i..][0] == round && rounds[i..][1..] == rounds[i + 1..];
      i := i + 1;
      if !closed {
        var atOrPastDeadline := round.before >= w.deadlineMs;
        if round.listing.None? {
          return Refused(RunLookupFailed);
        }
        watched := MergeIds(watched, ListedIds(round.listing.value, w.head.GetOr("")));
        if atOrPastDeadline {
          closed := true;
        }
      }
      var swept := SweepRuns(watched, round.fetch, w.head);
      if swept.Err? {
        return Refused(swept.error);
      }
      var observed := swept.value;
      var failed := FirstMatch(observed, IsActionable);
      if failed.Some? {
        return Concluded(failed.value, "failure", observed);
      }
      var pending := Pending(observed);
      if pending == [] {
        if closed {
          return Conclude(observed, w.head);
        }
        continue;
      }
      var j := JudgePending(w.q, Elapsed(w, round.now), round.now, firstQueued, pending);
      firstQueued := j.firstQueued;
      if j.queuedTooLong.Some? {
        return Concluded(j.queuedTooLong.value, "queued_too_long", observed);
      }
      if j.timedOut.Some? {
        return Concluded(j.timedOut.value, "timed_out", observed);
      }
    }
    v := Unfinished;
  }

  method WatchCiRun(q: Request, world: World) returns (v: Verdict)
    ensures v == WatchRun(q, world)
  {
    if !ValidRequest(q) {
      return Refused(InputInvalid);
    }
    var bound := BindHead(q, world);
    if bound.Err? {
      return Refused(bound.error);
    }
    var w := Watch(q, world.startMs, DeadlineMs(q, world), bound.value);
    if q.runId.Some? {
      v := PollRuns(w, Loop([q.runId.value], true, map[]), world.polls);
      return;
    }
    var head := bound.value.GetOr("");
    var i := 0;
    assert world.discovery[0..] == world.discovery;
    while i < |world.discovery|
      invariant 0 <= i <= |world.discovery|
      invariant Discover(w.deadlineMs, head, world.discovery) == Discover(w.deadlineMs, head, world.discovery[i..])
    {
      var round := world.discovery[i];
      assert world.discovery[i..][1..] == world.discovery[i + 1..];
      if round.listing.None? {
        return Refused(RunLookupFailed);
      }
      var ids, count := ListedIds(round.listing.value, head), ListedCount(round.listing.value, head);
      if count > 0 || w.deadlineMs - round.clock <= 0 {
        if count == 0 {
          return Refused(NoRunForHead);
        }
        if ids == [] {
          return Refused(RunLookupFailed);
        }
        v := PollRuns(w, Loop(ids, false, map[]), world.polls);
        return;
      }
      i := i + 1;
    }
    v := Unfinished;
  }
}
