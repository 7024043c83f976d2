/**
 What a CI verdict is worth (mcp/ground-control/lib/ci-watcher.js): a success speaks for every run the
 head was seen to have, and a watch whose clock advances with its sleeps always ends.
 */
module CiVerdicts {
  import opened Wrappers
  import opened CiWatcher

  // ---- success is sound --------------------------------------------------------------

  ghost predicate Watched(runs: seq<Observed>, id: int) {
    exists o :: o in runs && o.id == id
  }

  ghost predicate AllWatched(runs: seq<Observed>, ids: seq<int>) {
    forall id :: id in ids ==> Watched(runs, id)
  }

  /** One sweep saw every run completed, successful, on the bound head and without a failed job. */
  ghost predicate GreenSweep(round: PollRound, runs: seq<Observed>, head: Option<string>) {
    && (forall i :: 0 <= i < |runs| ==> round.fetch(i) == Some(runs[i].snapshot))
    && (forall o :: o in runs ==>
          && o.snapshot.status == "completed" && o.snapshot.conclusion == "success"
          && !HeadDiffers(head, o.snapshot) && !IsActionable(o))
  }

  /** Every listing up to round `last` was answered, and each of its numbered runs is in the verdict. */
  ghost predicate ListingsCovered(rounds: seq<PollRound>, last: nat, head: string, runs: seq<Observed>) {
    forall i :: 0 <= i <= last && i < |rounds| ==>
      rounds[i].listing.Some? && AllWatched(runs, ListedIds(rounds[i].listing.value, head))
  }

  /**
   The evidence behind a success: round `listed` took its listing at or after the deadline, and the
   sweep of round `swept`, not before it, was green for everything listed until then.
   */
  ghost predicate Evidence(w: Watch, l: Loop, rounds: seq<PollRound>, runs: seq<Observed>, listed: nat, swept: nat) {
    && listed <= swept < |rounds|
    && AllWatched(runs, l.watched)
    && GreenSweep(rounds[swept], runs, w.head)
    && (!l.closed ==>
          rounds[listed].before >= w.deadlineMs && ListingsCovered(rounds, listed, w.head.GetOr(""), runs))
  }

  lemma SweepWatches(ids: seq<int>, fetch: nat -> Option<Snapshot>, head: Option<string>)
    requires Sweep(ids, fetch, head).Ok?
    ensures AllWatched(Sweep(ids, fetch, head).value, ids)
  {
    var runs := Sweep(ids, fetch, head).value;
    forall id | id in ids ensures Watched(runs, id) {
      var i :| 0 <= i < |ids| && ids[i] == id;
      assert runs[i] in runs;
    }
  }

  /** Relisting keeps what was watched, adds what was listed, and closes the window at the deadline. */
  lemma RelistGrows(w: Watch, l: Loop, round: PollRound)
    requires Relist(w, l, round).Some?
    ensures var listed := Relist(w, l, round).value;
      && l.watched <= listed.watched
      && (l.closed ==> listed == l)
      && (!l.closed ==>
            && round.listing.Some? && (listed.closed <==> round.before >= w.deadlineMs)
            && forall id :: id in ListedIds(round.listing.value, w.head.GetOr("")) ==> id in listed.watched)
  {
  }

  /** Judging a sweep succeeds only on a closed window and a sweep that is green throughout. */
  lemma JudgeSucceeds(w: Watch, l: Loop, runs: seq<Observed>, nowMs: int)
    requires JudgeSweep(w, l, runs, nowMs).Ended? && JudgeSweep(w, l, runs, nowMs).verdict.Success?
    ensures var v := JudgeSweep(w, l, runs, nowMs).verdict;
      && l.closed && v.runs == runs && (w.head.Some? ==> v.head == w.head)
      && forall o :: o in runs ==>
           o.snapshot.status == "completed" && o.snapshot.conclusion == "success" && !IsActionable(o)
  {
    assert FirstMatch(runs, IsActionable).None? && FirstMatch(runs, IsNonSuccess).None?;
  }

  lemma JudgeKeepsWatching(w: Watch, l: Loop, runs: seq<Observed>, nowMs: int)
    requires JudgeSweep(w, l, runs, nowMs).Slept?
    ensures var next := JudgeSweep(w, l, runs, nowMs).next;
      next.watched == l.watched && next.closed == l.closed
  {
  }

  lemma SweepSees(ids: seq<int>, fetch: nat -> Option<Snapshot>, head: Option<string>)
    requires Sweep(ids, fetch, head).Ok?
    ensures var runs := Sweep(ids, fetch, head).value;
      && (forall i :: 0 <= i < |runs| ==> fetch(i) == Some(runs[i].snapshot))
      && forall o :: o in runs ==> !HeadDiffers(head, o.snapshot)
  {
    var runs := Sweep(ids, fetch, head).value;
    forall o | o in runs ensures !HeadDiffers(head, o.snapshot) {
      var i :| 0 <= i < |runs| && runs[i] == o;
    }
  }

  /** The round that ends in success: its sweep is green and covers all that is watched by then. */
  lemma SuccessfulTurn(w: Watch, l: Loop, round: PollRound)
    requires TakeTurn(w, l, round).Ended? && TakeTurn(w, l, round).verdict.Success?
    ensures var runs := TakeTurn(w, l, round).verdict.runs;
      && GreenSweep(round, runs, w.head) && AllWatched(runs, l.watched)
      && (l.watched != [] ==> runs != [])
      && (!l.closed ==>
            && round.before >= w.deadlineMs && round.listing.Some?
            && AllWatched(runs, ListedIds(round.listing.value, w.head.GetOr(""))))
    ensures w.head.Some? ==> TakeTurn(w, l, round).verdict.head == w.head
  {
    var listed := Relist(w, l, round).value;
    var runs := Sweep(listed.watched, round.fetch, w.head).value;
    RelistGrows(w, l, round);
    SweepWatches(listed.watched, round.fetch, w.head);
    SweepSees(listed.watched, round.fetch, w.head);
    JudgeSucceeds(w, listed, runs, round.now);
  }

  /** A round that goes on keeps what it watched, and watches what it listed. */
  lemma ContinuingTurn(w: Watch, l: Loop, round: PollRound)
    requires TakeTurn(w, l, round).Slept?
    ensures var next := TakeTurn(w, l, round).next;
      && l.watched <= next.watched
      && (l.closed ==> next.closed)
      && (!l.closed ==>
            && round.listing.Some? && (next.closed <==> round.before >= w.deadlineMs)
            && forall id :: id in ListedIds(round.listing.value, w.head.GetOr("")) ==> id in next.watched)
  {
    var listed := Relist(w, l, round).value;
    RelistGrows(w, l, round);
    JudgeKeepsWatching(w, listed, Sweep(listed.watched, round.fetch, w.head).value, round.now);
  }

  lemma EvidenceFromNext(w: Watch, l: Loop, rounds: seq<PollRound>, runs: seq<Observed>, listed: nat, swept: nat)
    requires rounds != [] && TakeTurn(w, l, rounds[0]).Slept?
    requires Evidence(w, TakeTurn(w, l, rounds[0]).next, rounds[1..], runs, listed, swept)
    ensures Evidence(w, l, rounds, runs, if TakeTurn(w, l, rounds[0]).next.closed then 0 else listed + 1, swept + 1)
  {
    ContinuingTurn(w, l, rounds[0]);
    var next := TakeTurn(w, l, rounds[0]).next;
    var at := if next.closed then 0 else listed + 1;
    assert forall id :: id in l.watched ==> id in next.watched;
    if !l.closed {
      forall i | 0 <= i <= at && i < |rounds|
        ensures rounds[i].listing.Some? && AllWatched(runs, ListedIds(rounds[i].listing.value, w.head.GetOr("")))
      {
        if i > 0 {
          assert rounds[i] == rounds[1..][i - 1];
        }
      }
    }
    assert Evidence(w, l, rounds, runs, at, swept + 1);
  }

  lemma {:induction false} PollSuccessHasEvidence(w: Watch, l: Loop, rounds: seq<PollRound>)
    requires PollAll(w, l, rounds).Success?
    ensures exists listed: nat, swept: nat :: Evidence(w, l, rounds, PollAll(w, l, rounds).runs, listed, swept)
    ensures l.watched != [] ==> PollAll(w, l, rounds).runs != []
    ensures w.head.Some? ==> PollAll(w, l, rounds).head == w.head
    decreases |rounds|
  {
    var turn := TakeTurn(w, l, rounds[0]);
    var runs := PollAll(w, l, rounds).runs;
    match turn
    case Ended(_) =>
      SuccessfulTurn(w, l, rounds[0]);
      assert Evidence(w, l, rounds, runs, 0, 0);
    case Slept(_, next) =>
      ContinuingTurn(w, l, rounds[0]);
      PollSuccessHasEvidence(w, next, rounds[1..]);
      var listed: nat, swept: nat :| Evidence(w, next, rounds[1..], runs, listed, swept);
      EvidenceFromNext(w, l, rounds, runs, listed, swept);
  }

  /** The runs the first listing of the head that named any. */
  function FirstListing(deadlineMs: int, head: string, rounds: seq<DiscoveryRound>): seq<int> {
    match Discover(deadlineMs, head, rounds)
    case Found(ids, _) => ids
    case _ => []
  }

  /**
   CI success is sound: it names a full commit, at least one run, and rests on a listing taken at or
   after the registration deadline and on one later sweep in which every run of every listing was
   completed with success on that commit.
   */
  lemma SuccessIsSound(q: Request, world: World)
    requires q.runId.None? && WatchRun(q, world).Success?
    ensures var v := WatchRun(q, world);
      && v.runs != [] && v.head.Some? && IsHeadSha(v.head.value)
      && (q.expectedHead != "" ==> v.head.value == q.expectedHead)
      && AllWatched(v.runs, FirstListing(DeadlineMs(q, world), v.head.value, world.discovery))
      && exists listed: nat, swept: nat ::
           && listed <= swept < |world.polls|
           && world.polls[listed].before >= DeadlineMs(q, world)
           && ListingsCovered(world.polls, listed, v.head.value, v.runs)
           && GreenSweep(world.polls[swept], v.runs, v.head)
  {
    var v := WatchRun(q, world);
    var head := BindHead(q, world).value;
    var w := Watch(q, world.startMs, DeadlineMs(q, world), head);
    var l := Loop(FirstListing(w.deadlineMs, head.value, world.discovery), false, map[]);
    assert v == PollAll(w, l, world.polls);
    PollSuccessHasEvidence(w, l, world.polls);
    var listed: nat, swept: nat :| Evidence(w, l, world.polls, v.runs, listed, swept);
    assert v.head == head;
  }

  // ---- pinned runs ---------------------------------------------------------------------------

  /** With the window closed, a success lists exactly the watched runs, in their order. */
  lemma {:induction false} ClosedSuccessListsTheWatched(w: Watch, l: Loop, rounds: seq<PollRound>)
    requires l.closed && PollAll(w, l, rounds).Success?
    ensures var runs := PollAll(w, l, rounds).runs;
      |runs| == |l.watched| && forall i :: 0 <= i < |runs| ==> runs[i].id == l.watched[i]
    ensures w.head.None? && l.watched != []
      ==> PollAll(w, l, rounds).head == PollAll(w, l, rounds).runs[0].snapshot.headSha
    decreases |rounds|
  {
    var listed := Relist(w, l, rounds[0]).value;
    var runs := Sweep(listed.watched, rounds[0].fetch, w.head).value;
    match TakeTurn(w, l, rounds[0])
    case Ended(_) => JudgeSucceeds(w, listed, runs, rounds[0].now);
    case Slept(_, next) =>
      JudgeKeepsWatching(w, listed, runs, rounds[0].now);
      ClosedSuccessListsTheWatched(w, next, rounds[1..]);
  }

  /** What a pinned success rests on: one sweep of its own run, and a head only as far as the snapshot names one. */
  ghost predicate PinnedEvidence(q: Request, polls: seq<PollRound>, run: Observed, head: Option<string>)
    requires q.runId.Some?
  {
    && run.id == q.runId.value
    && (exists swept: nat :: swept < |polls| && polls[swept].fetch(0) == Some(run.snapshot))
    && run.snapshot.status == "completed" && run.snapshot.conclusion == "success" && !IsActionable(run)
    && head == (if q.expectedHead == "" then run.snapshot.headSha else Some(q.expectedHead))
    && (q.expectedHead != "" ==> (run.snapshot.headSha == Some(q.expectedHead) <==> run.snapshot.headSha.Some?))
  }

  /**
   A pinned success is about exactly its own run. When the caller named a head, the run is on that
   head if and only if its snapshot carries a head at all; without one the check lets it pass.
   */
  lemma PinnedSuccessIsItsRun(q: Request, world: World)
    requires q.runId.Some? && WatchRun(q, world).Success?
    ensures |WatchRun(q, world).runs| == 1
    ensures PinnedEvidence(q, world.polls, WatchRun(q, world).runs[0], WatchRun(q, world).head)
  {
    var v := WatchRun(q, world);
    var head := BindHead(q, world).value;
    var w := Watch(q, world.startMs, DeadlineMs(q, world), head);
    var l := Loop([q.runId.value], true, map[]);
    PollSuccessHasEvidence(w, l, world.polls);
    ClosedSuccessListsTheWatched(w, l, world.polls);
    var listed: nat, swept: nat :| Evidence(w, l, world.polls, v.runs, listed, swept);
    assert v.runs[0] in v.runs;
    assert world.polls[swept].fetch(0) == Some(v.runs[0].snapshot);
  }

  /** The other way round: a green first sweep decides a pinned watch, and only another head refuses it. */
  lemma PinnedGreenRunIsRefusedIffHeadDiffers(q: Request, world: World, s: Snapshot)
    requires ValidRequest(q) && q.runId.Some? && (q.expectedHead == "" || IsHeadSha(q.expectedHead))
    requires world.polls != [] && world.polls[0].fetch(0) == Some(s)
    requires s.status == "completed" && s.conclusion == "success" && !IsActionable(Observed(q.runId.value, s))
    ensures WatchRun(q, world)
      == if q.expectedHead != "" && s.headSha.Some? && s.headSha.value != q.expectedHead
         then Refused(RunHeadMismatch(q.runId.value))
         else Success([Observed(q.runId.value, s)], if q.expectedHead != "" then Some(q.expectedHead) else s.headSha)
  {
    var head := BindHead(q, world).value;
    var w := Watch(q, world.startMs, DeadlineMs(q, world), head);
    PinnedTurn(w, q.runId.value, world.polls[0], s);
  }

  lemma PinnedTurn(w: Watch, id: int, round: PollRound, s: Snapshot)
    requires round.fetch(0) == Some(s)
    requires s.status == "completed" && s.conclusion == "success" && !IsActionable(Observed(id, s))
    ensures TakeTurn(w, Loop([id], true, map[]), round)
      == Ended(if HeadDiffers(w.head, s) then Refused(RunHeadMismatch(id))
               else Success([Observed(id, s)], if w.head.Some? then w.head else s.headSha))
  {
    var ids, seen := [id], [Observed(id, s)];
    assert ids[..|ids| - 1] == [] && [] + seen == seen && seen[1..] == [];
    assert Sweep([], round.fetch, w.head) == Ok([]);
    assert Sweep(ids, round.fetch, w.head) == if HeadDiffers(w.head, s) then Err(RunHeadMismatch(id)) else Ok(seen);
    assert Pending(seen) == [] && FirstMatch(seen, IsActionable).None? && FirstMatch(seen, IsNonSuccess).None?;
  }

  /** A concrete pinned success on a named head that the fetched snapshot never mentions. */
  lemma HeadlessRunPassesTheHeadCheck(q: Request, head: string, green: Snapshot)
    requires ValidRequest(q) && q.runId == Some(1) && q.expectedHead == head && IsHeadSha(head)
    requires green == Snapshot("completed", "success", None, None, None, [])
    ensures var world := World(0, None, [], [PollRound(0, None, _ => Some(green), 0)]);
      WatchRun(q, world) == Success([Observed(1, green)], Some(head))
  {
    var world := World(0, None, [], [PollRound(0, None, _ => Some(green), 0)]);
    PinnedGreenRunIsRefusedIffHeadDiffers(q, world, green);
  }

  // ---- runs without a numeric id ------------------------------------------------------------

  ghost predicate Numbered(listing: seq<Listed>, head: string) {
    forall r :: r in listing && r.headSha == Some(head) ==> r.databaseId.Some?
  }

  /** Every listed run of the head is among the runs the verdict is about. */
  ghost predicate Observes(runs: seq<Observed>, listing: seq<Listed>, head: string) {
    forall r :: r in listing && r.headSha == Some(head) ==> r.databaseId.Some? && Watched(runs, r.databaseId.value)
  }

  /** A listing's ids speak for all its runs of the head if and only if each of them has a numeric id. */
  lemma {:induction false} EveryListedRunCountsIffNumbered(runs: seq<Listed>, head: string)
    ensures |ListedIds(runs, head)| <= ListedCount(runs, head)
    ensures |ListedIds(runs, head)| == ListedCount(runs, head) <==> Numbered(runs, head)
  {
    if runs != [] {
      EveryListedRunCountsIffNumbered(runs[1..], head);
      assert forall r :: r in runs <==> r == runs[0] || r in runs[1..];
    }
  }

  lemma {:induction false} ListedIdsAreTheNumbers(runs: seq<Listed>, head: string)
    ensures forall r ::
      r in runs && r.headSha == Some(head) && r.databaseId.Some? ==> r.databaseId.value in ListedIds(runs, head)
  {
    if runs != [] {
      ListedIdsAreTheNumbers(runs[1..], head);
      assert forall r :: r in runs <==> r == runs[0] || r in runs[1..];
    }
  }

  lemma ObservesIffNumbered(runs: seq<Observed>, listing: seq<Listed>, head: string)
    requires AllWatched(runs, ListedIds(listing, head))
    ensures Observes(runs, listing, head) <==> Numbered(listing, head)
  {
    ListedIdsAreTheNumbers(listing, head);
  }

  /** The first round whose clock, read before its listing, is at or after the deadline. */
  function ClosingRound(deadlineMs: int, rounds: seq<PollRound>): (k: nat)
    ensures k <= |rounds|
    ensures forall i :: 0 <= i < k ==> rounds[i].before < deadlineMs
    ensures k < |rounds| ==> rounds[k].before >= deadlineMs
  {
    if rounds == [] || rounds[0].before >= deadlineMs then 0 else 1 + ClosingRound(deadlineMs, rounds[1..])
  }

  /** The listing that ended the first wait. */
  function FoundListing(deadlineMs: int, head: string, rounds: seq<DiscoveryRound>): (r: seq<Listed>)
    ensures Discover(deadlineMs, head, rounds).Found? ==> ListedIds(r, head) == Discover(deadlineMs, head, rounds).ids
  {
    if rounds == [] || rounds[0].listing.None? then []
    else if ListedCount(rounds[0].listing.value, head) > 0 || deadlineMs - rounds[0].clock <= 0
         then rounds[0].listing.value
    else FoundListing(deadlineMs, head, rounds[1..])
  }

  /** The listings of the first rounds, as far as they were answered. */
  function Answered(rounds: seq<PollRound>): (r: seq<seq<Listed>>)
    ensures forall listing :: listing in r ==> exists i :: 0 <= i < |rounds| && rounds[i].listing == Some(listing)
  {
    if rounds == [] then []
    else (if rounds[0].listing.Some? then [rounds[0].listing.value] else []) + Answered(rounds[1..])
  }

  /** Every listing the watch counts on: the one that ended the first wait, and those up to the closing round. */
  function ReadListings(q: Request, world: World, head: string): seq<seq<Listed>> {
    var deadline := DeadlineMs(q, world);
    var k := ClosingRound(deadline, world.polls);
    [FoundListing(deadline, head, world.discovery)] + Answered(world.polls[..if k < |world.polls| then k + 1 else k])
  }

  ghost predicate EveryRunIsNumbered(listings: seq<seq<Listed>>, head: string) {
    forall listing :: listing in listings ==> Numbered(listing, head)
  }

  ghost predicate EveryRunIsObserved(listings: seq<seq<Listed>>, head: string, runs: seq<Observed>) {
    forall listing :: listing in listings ==> Observes(runs, listing, head)
  }

  lemma SuccessFoundRuns(q: Request, world: World)
    requires q.runId.None? && WatchRun(q, world).Success?
    ensures BindHead(q, world).Ok? && BindHead(q, world).value.Some?
    ensures WatchRun(q, world).head == BindHead(q, world).value
    ensures Discover(DeadlineMs(q, world), BindHead(q, world).value.value, world.discovery).Found?
  {
    SuccessIsSound(q, world);
    var head := BindHead(q, world).value;
    var w := Watch(q, world.startMs, DeadlineMs(q, world), head);
    var l := Loop(FirstListing(w.deadlineMs, head.value, world.discovery), false, map[]);
    PollSuccessHasEvidence(w, l, world.polls);
  }

  /** The numbered runs of every counted listing are among the runs of a success. */
  lemma SuccessCoversItsListings(q: Request, world: World, head: string)
    requires q.runId.None? && WatchRun(q, world).Success? && WatchRun(q, world).head == Some(head)
    ensures ClosingRound(DeadlineMs(q, world), world.polls) < |world.polls|
    ensures forall listing :: listing in ReadListings(q, world, head) ==>
      AllWatched(WatchRun(q, world).runs, ListedIds(listing, head))
  {
    SuccessIsSound(q, world);
    SuccessFoundRuns(q, world);
    var runs, deadline := WatchRun(q, world).runs, DeadlineMs(q, world);
    var listed: nat, swept: nat :|
      && listed <= swept < |world.polls| && world.polls[listed].before >= deadline
      && ListingsCovered(world.polls, listed, head, runs)
      && GreenSweep(world.polls[swept], runs, Some(head));
    AnsweredAreCovered(world.polls, ClosingRound(deadline, world.polls), listed, head, runs);
  }

  lemma AnsweredAreCovered(rounds: seq<PollRound>, k: nat, last: nat, head: string, runs: seq<Observed>)
    requires k <= last < |rounds| && ListingsCovered(rounds, last, head, runs)
    ensures forall listing :: listing in Answered(rounds[..k + 1]) ==> AllWatched(runs, ListedIds(listing, head))
  {
    forall listing | listing in Answered(rounds[..k + 1]) ensures AllWatched(runs, ListedIds(listing, head)) {
      var i :| 0 <= i < k + 1 && rounds[..k + 1][i].listing == Some(listing);
      assert rounds[i].listing == Some(listing);
    }
  }

  /**
   A success speaks for every run that any of its listings named for the head if and only if each of
   those runs has a numeric id; the others are never looked at.
   */
  lemma SuccessSpeaksForEveryListedRunIffNumbered(q: Request, world: World)
    requires q.runId.None? && WatchRun(q, world).Success?
    ensures WatchRun(q, world).head.Some?
    ensures var head := WatchRun(q, world).head.value;
      EveryRunIsObserved(ReadListings(q, world, head), head, WatchRun(q, world).runs)
      <==> EveryRunIsNumbered(ReadListings(q, world, head), head)
  {
    SuccessFoundRuns(q, world);
    var head := WatchRun(q, world).head.value;
    var runs, listings := WatchRun(q, world).runs, ReadListings(q, world, head);
    SuccessCoversItsListings(q, world, head);
    forall listing | listing in listings ensures Observes(runs, listing, head) <==> Numbered(listing, head) {
      ObservesIffNumbered(runs, listing, head);
    }
  }

  /** So a watch can succeed although a run of its head was listed and never looked at. */
  lemma UnnumberedRunIsIgnored(q: Request, head: string, green: Snapshot, r: Listed)
    requires ValidRequest(q) && q.runId.None? && q.expectedHead == head && IsHeadSha(head)
    requires green == Snapshot("completed", "success", Some(head), None, None, [])
    requires r == Listed(None, Some(head))
    ensures var listing := Some([Listed(Some(1), Some(head)), r]);
      var deadline := Min(q.registrationTimeout, q.totalTimeout) * 1000;
      var world := World(0, None, [DiscoveryRound(listing, 0)],
                           [PollRound(deadline, listing, _ => Some(green), deadline)]);
      WatchRun(q, world) == Success([Observed(1, green)], Some(head))
  {
    var runs := [Listed(Some(1), Some(head)), r];
    assert runs[1..] == [r];
    OneListed(r, head);
    assert ListedIds(runs, head) == [1];
    assert ListedCount(runs, head) == 2;
    var deadline := Min(q.registrationTimeout, q.totalTimeout) * 1000;
    var round := PollRound(deadline, Some(runs), _ => Some(green), deadline);
    var w := Watch(q, 0, deadline, Some(head));
    OneGreenRound(w, round, green, runs);
  }

  lemma OneListed(r: Listed, head: string)
    ensures ListedCount([r], head) == if r.headSha == Some(head) then 1 else 0
    ensures ListedIds([r], head) == if r.headSha == Some(head) && r.databaseId.Some? then [r.databaseId.value] else []
  {
    assert [r][1..] == [];
  }

  lemma OneGreenRound(w: Watch, round: PollRound, green: Snapshot, runs: seq<Listed>)
    requires w.head.Some? && ListedIds(runs, w.head.value) == [1]
    requires green == Snapshot("completed", "success", w.head, None, None, [])
    requires round.listing == Some(runs) && round.before >= w.deadlineMs && round.fetch(0) == Some(green)
    ensures PollAll(w, Loop([1], false, map[]), [round]) == Success([Observed(1, green)], w.head)
  {
    var ids, seen := [1], [Observed(1, green)];
    assert ids[..|ids| - 1] == [] && [] + seen == seen && seen[1..] == [];
    assert Merge(ids, []) == ids && Merge(ids, ids) == ids;
    assert Sweep([], round.fetch, w.head) == Ok([]);
    assert Sweep(ids, round.fetch, w.head) == Ok(seen);
    assert Pending(seen) == [] && FirstMatch(seen, IsActionable).None? && FirstMatch(seen, IsNonSuccess).None?;
    assert Relist(w, Loop(ids, false, map[]), round) == Some(Loop(ids, true, map[]));
    assert JudgeSweep(w, Loop(ids, true, map[]), seen, round.now) == Ended(Conclude(seen, w.head));
  }

  // ---- every watch ends -----------------------------------------------------------------------

  /** The clock never goes back inside a round, and every sleep passes before the next round. */
  ghost predicate ClockAdvances(w: Watch, l: Loop, rounds: seq<PollRound>)
    decreases |rounds|
  {
    rounds != [] ==>
      && rounds[0].before <= rounds[0].now
      && match TakeTurn(w, l, rounds[0])
         case Ended(_) => true
         case Slept(ms, next) =>
           && (|rounds| > 1 ==> rounds[0].now + ms <= rounds[1].before)
           && ClockAdvances(w, next, rounds[1..])
  }

  /** The time a watch can still spend, with one sleep shortened by the registration deadline. */
  function Budget(w: Watch, l: Loop, before: int): int {
    w.startMs + (w.q.totalTimeout + 1) * 1000 - before + if l.closed || before >= w.deadlineMs then 0 else 1000
  }

  lemma {:induction false} JudgeIsOverCap(q: Request, elapsed: int, nowMs: int, firstQueued: map<int, int>,
                                          pending: seq<Observed>)
    requires pending != [] && elapsed > q.totalTimeout
    requires forall o :: o in pending ==> o.snapshot.status != "completed"
    ensures var j := Judge(q, elapsed, nowMs, firstQueued, pending);
      j.queuedTooLong.Some? || j.timedOut.Some?
    decreases |pending|
  {
    var before := pending[..|pending| - 1];
    assert pending[|pending| - 1] in pending;
    if before != [] {
      assert forall o :: o in before ==> o in pending;
      JudgeIsOverCap(q, elapsed, nowMs, firstQueued, before);
    }
  }

  /** A sleeping round uses up at least a second of the budget, and is inside the total cap. */
  lemma SleepSpendsBudget(w: Watch, l: Loop, round: PollRound, nextBefore: int)
    requires w.q.pollInterval > 0 && w.deadlineMs <= w.startMs + w.q.totalTimeout * 1000
    requires round.before <= round.now
    requires TakeTurn(w, l, round).Slept?
    requires round.now + TakeTurn(w, l, round).ms <= nextBefore
    ensures Budget(w, TakeTurn(w, l, round).next, nextBefore) <= Budget(w, l, round.before) - 1000
  {
    var listed := Relist(w, l, round).value;
    ContinuingTurn(w, l, round);
    assert w.q.pollInterval * 1000 >= 1000;
  }

  lemma SleepIsInsideBudget(w: Watch, l: Loop, round: PollRound)
    requires w.deadlineMs <= w.startMs + w.q.totalTimeout * 1000
    requires round.before <= round.now
    requires TakeTurn(w, l, round).Slept?
    ensures Budget(w, l, round.before) > 0
  {
    var listed := Relist(w, l, round).value;
    var runs := Sweep(listed.watched, round.fetch, w.head).value;
    var pending := Pending(runs);
    if pending != [] && Elapsed(w, round.now) > w.q.totalTimeout {
      JudgeIsOverCap(w.q, Elapsed(w, round.now), round.now, listed.firstQueued, pending);
    }
  }

  lemma {:induction false} PollingEnds(w: Watch, l: Loop, rounds: seq<PollRound>)
    requires w.q.pollInterval > 0 && w.deadlineMs <= w.startMs + w.q.totalTimeout * 1000
    requires rounds != [] && ClockAdvances(w, l, rounds)
    requires (|rounds| - 1) * 1000 >= Budget(w, l, rounds[0].before)
    ensures !PollAll(w, l, rounds).Unfinished?
    decreases |rounds|
  {
    match TakeTurn(w, l, rounds[0])
    case Ended(v) => NeverEndsUnfinished(w, l, rounds[0]);
    case Slept(_, next) =>
      SleepIsInsideBudget(w, l, rounds[0]);
      SleepSpendsBudget(w, l, rounds[0], rounds[1].before);
      PollingEnds(w, next, rounds[1..]);
  }

  lemma NeverEndsUnfinished(w: Watch, l: Loop, round: PollRound)
    requires TakeTurn(w, l, round).Ended?
    ensures !TakeTurn(w, l, round).verdict.Unfinished?
  {
  }

  /** Every wait of the discovery passes before its next clock reading. */
  ghost predicate DiscoveryClockAdvances(q: Request, deadlineMs: int, rounds: seq<DiscoveryRound>) {
    forall i :: 0 < i < |rounds| ==>
      rounds[i].clock >= rounds[i - 1].clock + Min(q.pollInterval * 1000, deadlineMs - rounds[i - 1].clock)
  }

  lemma {:induction false} DiscoveryEnds(q: Request, deadlineMs: int, head: string, rounds: seq<DiscoveryRound>)
    requires q.pollInterval > 0 && DiscoveryClockAdvances(q, deadlineMs, rounds)
    requires rounds != [] && (|rounds| - 1) * 1000 >= deadlineMs - rounds[0].clock
    ensures !Discover(deadlineMs, head, rounds).StillWaiting?
    decreases |rounds|
  {
    if |rounds| > 1 && deadlineMs - rounds[0].clock > 0 {
      assert rounds[1].clock >= rounds[0].clock + Min(q.pollInterval * 1000, deadlineMs - rounds[0].clock);
      var rest := rounds[1..];
      forall i | 0 < i < |rest|
        ensures rest[i].clock >= rest[i - 1].clock + Min(q.pollInterval * 1000, deadlineMs - rest[i - 1].clock)
      {
        assert rounds[i + 1].clock >= rounds[i].clock + Min(q.pollInterval * 1000, deadlineMs - rounds[i].clock);
      }
      DiscoveryEnds(q, deadlineMs, head, rest);
    }
  }

  /** Where the poll loop starts. */
  function InitialLoop(q: Request, world: World, head: string): Loop {
    if q.runId.Some? then Loop([q.runId.value], true, map[])
    else Loop(FirstListing(DeadlineMs(q, world), head, world.discovery), false, map[])
  }

  /**
   Every watch ends: whatever GitHub answers, once the clock advances with the sleeps a verdict comes
   within the registration time and the total cap, in rounds of at least a second.
   */
  lemma EveryWatchEnds(q: Request, world: World)
    requires q.totalTimeout > 0 && |world.polls| >= q.totalTimeout + 3 && world.polls[0].before >= world.startMs
    requires |world.discovery| > Min(q.registrationTimeout, q.totalTimeout) && world.discovery != []
    requires world.discovery[0].clock >= world.startMs
    requires DiscoveryClockAdvances(q, DeadlineMs(q, world), world.discovery)
    requires BindHead(q, world).Ok? ==>
      var head := BindHead(q, world).value;
      ClockAdvances(Watch(q, world.startMs, DeadlineMs(q, world), head),
                    InitialLoop(q, world, head.GetOr("")), world.polls)
    ensures !WatchRun(q, world).Unfinished?
  {
    if ValidRequest(q) && BindHead(q, world).Ok? {
      var head := BindHead(q, world).value;
      var w := Watch(q, world.startMs, DeadlineMs(q, world), head);
      DiscoveryEnds(q, w.deadlineMs, head.GetOr(""), world.discovery);
      PollingEnds(w, InitialLoop(q, world, head.GetOr("")), world.polls);
    }
  }
}
