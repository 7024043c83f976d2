/**
 What the callers were told of each job (mcp/ground-control/lib/async-job-registry.js): a story of its
 start, an accepted cancel, the end of its function and its last callback. In every run the registry's
 job is the story, and every answer follows from it.
 */
module AsyncJobStories {
  import opened Wrappers
  import opened AsyncJobs
  import opened AsyncJobRuns

  // ---- stories -----------------------------------------------------------------------------

  datatype End = Returned(result: int) | Raised

  /** Started with `o` at `at`; whether a cancel was accepted; how the function ended; the last callback. */
  datatype Story = Story(o: Options, at: nat, cancelled: bool, end: Option<End>, closedAt: Option<nat>)

  type Stories = map<nat, Story>

  /** What an answered start adds to the stories. */
  function Opened(y: Stories, reply: Envelope, o: Options, now: nat): Stories {
    if reply.Report? && reply.job !in y then y[reply.job := Story(o, now, false, None, None)] else y
  }

  /** Reads the calls, the callbacks and the answers, never the registry. */
  function Told(y: Stories, s: State, a: Action): Stories
    requires Linked(s)
  {
    if !Enabled(s, a) then y
    else
      match a
      case Start(o, now) =>
        Opened(y, Started(s, o, now).reply, o, now)
      case Cancel(id, now) =>
        var reply := CancelRequested(s, id, now).reply;
        if reply.Cancelling? && reply.job in y then y[reply.job := y[reply.job].(cancelled := true)] else y
      case Resolve(n, result) => if n in y then y[n := y[n].(end := Some(Returned(result)))] else y
      case Reject(n) => if n in y then y[n := y[n].(end := Some(Raised))] else y
      case Finish(n, now) => if n in y then y[n := y[n].(closedAt := Some(now))] else y
      case _ => y
  }

  function StoriesOf(capacity: nat, actions: seq<Action>): Stories
    decreases |actions|
  {
    if actions == [] then map[]
    else
      var before, a := actions[..|actions| - 1], actions[|actions| - 1];
      Told(StoriesOf(capacity, before), Run(capacity, before), a)
  }

  function StatusOf(y: Story): Status {
    match y.end
    case None => Running
    case Some(Returned(_)) => Done
    case Some(Raised) => if y.cancelled then Cancelled else Failed
  }

  function ResultOf(y: Story): int {
    match y.end
    case Some(Returned(result)) => result
    case _ => 0
  }

  function SlotOf(o: Options): Option<Slot> {
    if o.key.Some? && o.namespace.Some? then Some(Slot(o.namespace.value, o.key.value)) else None
  }

  /** A job is what its start declared, aborted by an accepted cancel alone, and ended as its function did. */
  predicate JobFollows(y: Story, j: Job) {
    && j.startedAt == y.at && j.slot == SlotOf(y.o) && j.fingerprint == y.o.fingerprint
    && j.scope == y.o.scope && j.singleFlight == y.o.singleFlight && j.cancellable == y.o.cancellable
    && j.aborted == y.cancelled && (y.cancelled ==> y.o.cancellable)
    && j.status == StatusOf(y) && j.result == ResultOf(y)
    && j.finishedAt == y.closedAt && (y.closedAt.Some? ==> y.end.Some?)
  }

  ghost predicate Follows(y: Stories, s: State) {
    && y.Keys == s.jobs.Keys
    && forall n :: n in y ==> JobFollows(y[n], s.jobs[n])
  }

  // ---- every step keeps them ------------------------------------------------------------------

  lemma SlotIsValidated(o: Options)
    ensures Validate(o).Ok? ==> Validate(o).value == SlotOf(o)
  {
  }

  lemma CreateFollows(y: Stories, s: State, slot: Option<Slot>, o: Options, now: nat)
    requires Inv(s) && Follows(y, s) && slot == SlotOf(o)
    ensures Follows(y[s.serial + 1 := Story(o, now, false, None, None)], Create(s, slot, o, now).state)
    ensures s.serial + 1 !in y
  {
    var t, z := Create(s, slot, o, now).state, y[s.serial + 1 := Story(o, now, false, None, None)];
    forall n | n in z ensures n in t.jobs && JobFollows(z[n], t.jobs[n]) {
      assert n != s.serial + 1 ==> JobFollows(y[n], s.jobs[n]);
    }
  }

  lemma AdmitFollows(y: Stories, s: State, slot: Option<Slot>, o: Options, now: nat)
    requires Inv(s) && Follows(y, s) && slot == SlotOf(o)
    ensures var r := Admit(s, slot, o, now);
      Follows(Opened(y, r.reply, o, now), r.state)
  {
    CreateFollows(y, s, slot, o, now);
  }

  lemma StartFollows(y: Stories, s: State, o: Options, now: nat)
    requires Inv(s) && Follows(y, s)
    ensures var r := Started(s, o, now);
      Follows(Opened(y, r.reply, o, now), r.state)
  {
    SlotIsValidated(o);
    if Validate(o).Ok? {
      var slot := SlotOf(o);
      var swept := Reaped(s, now);
      ReapKeepsInv(s, now);
      if Replay(swept, slot, o, now).None? {
        EvictKeepsInv(swept, slot, o, now);
        AdmitFollows(y, Evicted(swept, slot), slot, o, now);
      } else {
        ReplayIsKnown(y, swept, slot, o, now);
      }
    }
  }

  lemma ReplayIsKnown(y: Stories, s: State, slot: Option<Slot>, o: Options, now: nat)
    requires Linked(s) && Follows(y, s) && Replay(s, slot, o, now).Some?
    ensures Opened(y, Replay(s, slot, o, now).value, o, now) == y
  {
    assert Existing(s, slot).Some? && Existing(s, slot).value in s.order;
  }

  /** What a cancel may do to the job objects. */
  lemma CancelOutcome(s: State, id: string, now: nat)
    requires Linked(s)
    ensures var r := CancelRequested(s, id, now);
      if r.reply.Cancelling? then
        && r.reply.job in s.jobs && s.jobs[r.reply.job].status == Running && s.jobs[r.reply.job].cancellable
        && r.state.jobs == s.jobs[r.reply.job := s.jobs[r.reply.job].(aborted := true)]
      else r.state.jobs == s.jobs
  {
  }

  lemma AbortFollows(y: Stories, s: State, n: nat, t: State)
    requires Follows(y, s) && n in s.jobs && s.jobs[n].status == Running && s.jobs[n].cancellable
    requires t.jobs == s.jobs[n := s.jobs[n].(aborted := true)]
    ensures n in y && Follows(y[n := y[n].(cancelled := true)], t)
  {
    assert JobFollows(y[n], s.jobs[n]);
  }

  lemma CancelFollows(y: Stories, s: State, id: string, now: nat)
    requires Inv(s) && Follows(y, s)
    ensures Follows(Told(y, s, Cancel(id, now)), Step(s, Cancel(id, now)))
  {
    CancelOutcome(s, id, now);
    var r := CancelRequested(s, id, now);
    if r.reply.Cancelling? {
      AbortFollows(y, s, r.reply.job, r.state);
    }
  }

  lemma CallbackFollows(y: Stories, s: State, a: Action)
    requires Inv(s) && Follows(y, s) && (a.Resolve? || a.Reject? || a.Finish?)
    ensures Follows(Told(y, s, a), Step(s, a))
  {
    if Enabled(s, a) {
      assert JobFollows(y[a.job], s.jobs[a.job]);
    }
  }

  lemma WaitingFollows(y: Stories, s: State, a: Action)
    requires Inv(s) && Follows(y, s) && (a.Poll? || a.Await? || a.TimerFires?)
    ensures Follows(Told(y, s, a), Step(s, a))
  {
    forall n | n in y ensures n in Step(s, a).jobs && JobFollows(y[n], Step(s, a).jobs[n]) {
      WaitingOnlyParks(s, a, n);
    }
  }

  lemma WaitingOnlyParks(s: State, a: Action, n: nat)
    requires Inv(s) && (a.Poll? || a.Await? || a.TimerFires?) && n in s.jobs
    ensures n in Step(s, a).jobs && Step(s, a).jobs[n] == s.jobs[n].(waiters := Step(s, a).jobs[n].waiters)
    ensures Step(s, a).jobs.Keys == s.jobs.Keys
  {
    if a.Await? {
      AwaitOnlyParks(s, a.id, a.waitMs, a.now, n);
    }
  }

  lemma StepFollows(y: Stories, s: State, a: Action)
    requires Inv(s) && Follows(y, s)
    ensures Follows(Told(y, s, a), Step(s, a))
  {
    if a.Start? {
      StartFollows(y, s, a.o, a.now);
    } else if a.Cancel? {
      CancelFollows(y, s, a.id, a.now);
    } else if a.Resolve? || a.Reject? || a.Finish? {
      CallbackFollows(y, s, a);
    } else {
      WaitingFollows(y, s, a);
    }
  }

  /** In every run the registry's job objects are exactly the stories of the calls and callbacks. */
  lemma {:induction false} EveryJobFollowsItsStory(capacity: nat, actions: seq<Action>)
    ensures Follows(StoriesOf(capacity, actions), Run(capacity, actions))
    decreases |actions|
  {
    if actions != [] {
      var before, a := actions[..|actions| - 1], actions[|actions| - 1];
      EveryJobFollowsItsStory(capacity, before);
      StepFollows(StoriesOf(capacity, before), Run(capacity, before), a);
    }
  }

  // ---- the answers ---------------------------------------------------------------------------------

  /** A job the registry still holds at `now`, with numbers JavaScript holds exactly. */
  ghost predicate Held(s: State, n: nat, now: nat) {
    && n in s.jobs && n in s.order && !Expired(s.jobs[n], now)
    && n < SAFE_INTEGERS && s.jobs[n].startedAt < SAFE_INTEGERS
  }

  function Handle(s: State, n: nat): string
    requires n in s.jobs
  {
    JobId(s.jobs[n].startedAt, n)
  }

  lemma HandleIsFound(s: State, n: nat, now: nat)
    requires Inv(s) && Held(s, n, now)
    ensures Lookup(Reaped(s, now), Handle(s, n)) == Some(n)
  {
    HandleFindsItsJob(Reaped(s, now), n);
  }

  lemma StatusMeaning(y: Story, j: Job)
    requires JobFollows(y, j)
    ensures j.status == Cancelled <==> y.cancelled && y.end == Some(Raised)
    ensures j.status == Failed <==> !y.cancelled && y.end == Some(Raised)
    ensures j.status == Done <==> y.end == Some(Returned(j.result))
    ensures j.status == Running <==> y.end.None?
  {
  }

  /** The report of a story: its status and result, and the time to its last callback or to now. */
  function ReportOf(y: Story, n: nat, now: nat): Envelope {
    Report(n, StatusOf(y), (if y.closedAt.Some? then y.closedAt.value else now) - y.at, ResultOf(y))
  }

  lemma StoryIsDescribed(y: Story, j: Job, n: nat, now: nat)
    requires JobFollows(y, j)
    ensures Describe(n, j, now)
      == ReportOf(y, n, now)
  {
  }

  /** A cancel's answer, and whether its job is aborted afterwards. */
  predicate CancelTells(reply: Envelope, aborted: bool, y: Story, n: nat) {
    && reply == (if y.end.Some? then AlreadyTerminal(n, StatusOf(y))
                 else if y.o.cancellable then Cancelling(n) else Refused(NotCancellable))
    && (aborted <==> y.cancelled || (y.end.None? && y.o.cancellable))
  }

  lemma CancelOfHeld(y: Story, s: State, n: nat, now: nat, r: Outcome)
    requires Inv(s) && Held(s, n, now) && JobFollows(y, s.jobs[n]) && r == CancelRequested(s, Handle(s, n), now)
    ensures n in r.state.jobs && CancelTells(r.reply, r.state.jobs[n].aborted, y, n)
    ensures forall m :: m in s.jobs && m != n ==> m in r.state.jobs && r.state.jobs[m] == s.jobs[m]
  {
    HandleIsFound(s, n, now);
  }

  /**
   In every run a cancel of a held job is answered by its story: already terminal once its function ended,
   else accepted if and only if its start declared it cancellable. The job is aborted afterwards if and
   only if a cancel was accepted, now or before, and no other job changes.
   */
  lemma CancelIsAnsweredByTheStory(capacity: nat, actions: seq<Action>, n: nat, now: nat)
    requires Held(Run(capacity, actions), n, now)
    ensures n in StoriesOf(capacity, actions)
    ensures var s := Run(capacity, actions);
      var r := CancelRequested(s, Handle(s, n), now);
      && n in r.state.jobs && CancelTells(r.reply, r.state.jobs[n].aborted, StoriesOf(capacity, actions)[n], n)
      && forall m :: m in s.jobs && m != n ==> m in r.state.jobs && r.state.jobs[m] == s.jobs[m]
  {
    EveryJobFollowsItsStory(capacity, actions);
    var s := Run(capacity, actions);
    CancelOfHeld(StoriesOf(capacity, actions)[n], s, n, now, CancelRequested(s, Handle(s, n), now));
  }

  /** In every run a job is cancelled if and only if its function raised after a cancel was accepted. */
  lemma CancelledIffAcceptedAndRaised(capacity: nat, actions: seq<Action>, n: nat)
    requires n in Run(capacity, actions).jobs
    ensures n in StoriesOf(capacity, actions)
    ensures var y, j := StoriesOf(capacity, actions)[n], Run(capacity, actions).jobs[n];
      && (j.status == Cancelled <==> y.cancelled && y.end == Some(Raised))
      && (j.status == Failed <==> !y.cancelled && y.end == Some(Raised))
      && (j.status == Done <==> y.end == Some(Returned(j.result)))
      && (j.status == Running <==> y.end.None?)
  {
    EveryJobFollowsItsStory(capacity, actions);
    StatusMeaning(StoriesOf(capacity, actions)[n], Run(capacity, actions).jobs[n]);
  }

  /** In every run a poll of a held job reports its story: status, result, and the time to its end or to now. */
  lemma PollTellsTheStory(capacity: nat, actions: seq<Action>, n: nat, now: nat)
    requires Held(Run(capacity, actions), n, now)
    ensures n in StoriesOf(capacity, actions)
    ensures var s, y := Run(capacity, actions), StoriesOf(capacity, actions)[n];
      Polled(s, Handle(s, n), now).reply
        == ReportOf(y, n, now)
  {
    EveryJobFollowsItsStory(capacity, actions);
    StoryIsDescribed(StoriesOf(capacity, actions)[n], Run(capacity, actions).jobs[n], n, now);
    HandleIsFound(Run(capacity, actions), n, now);
  }

  /** The promise of an await of a held job, by the job as it stands. */
  lemma AwaitOfHeld(s: State, n: nat, waitMs: int, now: nat)
    requires Inv(s) && Held(s, n, now)
    ensures Awaited(s, Handle(s, n), waitMs, now)
      == if waitMs <= 0 || waitMs > WAIT_MAX_MS then Answered(s, Refused(WaitInvalid))
         else if s.jobs[n].status == Running then Parked(Reaped(s, now), n)
         else Answered(Reaped(s, now), Describe(n, s.jobs[n], now))
  {
    HandleIsFound(s, n, now);
  }

  predicate AnsweredWith(w: Wait, reply: Envelope) {
    w.settles == 1 && !w.armed && w.answer == Some(reply)
  }

  /** What a promise says right after its await, by the story of its job. */
  predicate PromiseTells(promise: Wait, y: Story, n: nat, waitMs: int, now: nat) {
    if !(1 <= waitMs <= 1800 * 1000) then AnsweredWith(promise, Refused(WaitInvalid))
    else if y.end.Some? then AnsweredWith(promise, ReportOf(y, n, now))
    else promise == Wait(true, Some(n), 0, None)
  }

  lemma PromiseOfHeld(y: Story, s: State, n: nat, waitMs: int, now: nat, t: State)
    requires Inv(s) && Held(s, n, now) && JobFollows(y, s.jobs[n]) && t == Awaited(s, Handle(s, n), waitMs, now)
    ensures s.nextWait in t.waits && PromiseTells(t.waits[s.nextWait], y, n, waitMs, now)
    ensures n in t.jobs && (t.waits[s.nextWait].armed ==> s.nextWait in t.jobs[n].waiters)
  {
    StoryIsDescribed(y, s.jobs[n], n, now);
    StatusMeaning(y, s.jobs[n]);
    AwaitOfHeld(s, n, waitMs, now);
  }

  /**
   In every run an await settles at once for a wait out of bounds, or with the story of a job whose
   function has ended; beside a running job its promise waits, with a timer and among the job's waiters.
   */
  lemma AwaitIsAnsweredByTheStory(capacity: nat, actions: seq<Action>, n: nat, waitMs: int, now: nat)
    requires Held(Run(capacity, actions), n, now)
    ensures n in StoriesOf(capacity, actions)
    ensures var s := Run(capacity, actions);
      var t := Awaited(s, Handle(s, n), waitMs, now);
      && s.nextWait in t.waits && n in t.jobs
      && PromiseTells(t.waits[s.nextWait], StoriesOf(capacity, actions)[n], n, waitMs, now)
      && (t.waits[s.nextWait].armed ==> s.nextWait in t.jobs[n].waiters)
  {
    EveryJobFollowsItsStory(capacity, actions);
    var s := Run(capacity, actions);
    PromiseOfHeld(StoriesOf(capacity, actions)[n], s, n, waitMs, now, Awaited(s, Handle(s, n), waitMs, now));
  }

  // ---- starting -----------------------------------------------------------------------------------------

  /** The jobs still retained at `now`. */
  ghost function Retained(s: State, now: nat): set<nat>
    requires Linked(s)
  {
    set n | n in s.order && !Expired(s.jobs[n], now)
  }

  function Members(order: seq<nat>): set<nat> {
    set n | n in order
  }

  lemma {:induction false} AscendingCount(order: seq<nat>)
    requires Ascending(order)
    ensures |Members(order)| == |order|
  {
    if order != [] {
      var last := order[|order| - 1];
      var first := order[..|order| - 1];
      PrefixAscends(order);
      AscendingCount(first);
      assert last !in first;
      MembersAppend(first, last);
      assert order == first + [last];
    }
  }

  lemma MembersAppend(first: seq<nat>, last: nat)
    requires last !in first
    ensures |Members(first + [last])| == |Members(first)| + 1
  {
    assert Members(first + [last]) == Members(first) + {last};
  }

  lemma RetainedCount(s: State, now: nat)
    requires Inv(s)
    ensures |Reaped(s, now).order| == |Retained(s, now)|
  {
    ReapKeepsInv(s, now);
    AscendingCount(Reaped(s, now).order);
    assert Retained(s, now) == Members(Reaped(s, now).order);
  }

  /** Somebody's function of this scope has not ended. */
  ghost predicate ScopeIsTaken(y: Stories, scope: Option<string>) {
    scope.Some? && exists n :: n in y && y[n].end.None? && y[n].o.scope == scope
  }

  lemma BusyIsTaken(y: Stories, s: State, scope: Option<string>, now: nat)
    requires Inv(s) && Follows(y, s)
    ensures ScopeIsBusy(Reaped(s, now), scope) <==> ScopeIsTaken(y, scope)
  {
    forall n | n in y ensures JobFollows(y[n], s.jobs[n]) {
    }
    if ScopeIsTaken(y, scope) {
      var n :| n in y && y[n].end.None? && y[n].o.scope == scope;
      assert n in s.order && s.jobs[n].finishedAt.None?;
      assert n in Reaped(s, now).order;
    }
    if ScopeIsBusy(Reaped(s, now), scope) {
      var n :| n in Reaped(s, now).order && s.jobs[n].status == Running && s.jobs[n].scope == scope;
      assert JobFollows(y[n], s.jobs[n]);
    }
  }

  /** A start of a slot nobody holds, by the registry swept. */
  lemma StartOfNobody(s: State, o: Options, now: nat)
    requires Inv(s) && Validate(o).Ok?
    requires SlotOf(o).Some? ==> forall n :: n in Retained(s, now) ==> s.jobs[n].slot != SlotOf(o)
    ensures var swept := Reaped(s, now);
      Started(s, o, now).reply
        == if o.singleFlight && ScopeIsBusy(swept, o.scope) then Refused(Contended)
           else if |swept.order| >= s.capacity then Refused(CapacityExhausted)
           else Report(s.serial + 1, Running, 0, 0)
  {
    SlotIsValidated(o);
    var swept := Reaped(s, now);
    assert Existing(swept, SlotOf(o)).None? by {
      assert forall n :: n in swept.order ==> n in Retained(s, now);
    }
  }

  /**
   In every run a valid start that finds no retained job of its slot is contended if and only if it is
   single-flight and a job of its scope has not ended, else refused if and only if the retained jobs fill
   the registry, and otherwise reports a new running job.
   */
  lemma StartIsAnsweredByTheStories(capacity: nat, actions: seq<Action>, o: Options, now: nat)
    requires Validate(o).Ok?
    requires SlotOf(o).Some? ==>
      forall n :: n in Retained(Run(capacity, actions), now) ==> Run(capacity, actions).jobs[n].slot != SlotOf(o)
    ensures var s, y := Run(capacity, actions), StoriesOf(capacity, actions);
      var reply := Started(s, o, now).reply;
      if o.singleFlight && ScopeIsTaken(y, o.scope) then reply == Refused(Contended)
      else if |Retained(s, now)| >= capacity then reply == Refused(CapacityExhausted)
      else reply.Report? && reply.job !in y && reply == Report(reply.job, Running, 0, 0)
  {
    var s, y := Run(capacity, actions), StoriesOf(capacity, actions);
    EveryJobFollowsItsStory(capacity, actions);
    BusyIsTaken(y, s, o.scope, now);
    RetainedCount(s, now);
    CapacityIsFixed(capacity, actions);
    StartOfNobody(s, o, now);
  }

  // ---- repeated starts -------------------------------------------------------------------------------------

  /** A finished job is dropped once more than thirty minutes have passed since its last callback. */
  lemma RetainedForThirtyMinutes(capacity: nat, actions: seq<Action>, n: nat, now: nat)
    requires n in Run(capacity, actions).order
    ensures n in StoriesOf(capacity, actions)
    ensures var closed := StoriesOf(capacity, actions)[n].closedAt;
      n in Reaped(Run(capacity, actions), now).order <==> closed.None? || now <= closed.value + 30 * 60 * 1000
  {
    EveryJobFollowsItsStory(capacity, actions);
    assert JobFollows(StoriesOf(capacity, actions)[n], Run(capacity, actions).jobs[n]);
  }

  /** The function returned a result the caller calls stale. */
  predicate IsStaleStory(y: Story, o: Options) {
    y.end.Some? && y.end.value.Returned? && o.staleVerdict == Some(true)
  }

  /** What a repeated start of a held job's slot is answered, and whether the job stays. */
  predicate RepeatTells(reply: Envelope, kept: bool, y: Story, n: nat, o: Options, now: nat) {
    && (reply == Refused(Conflict) <==> y.o.fingerprint != o.fingerprint)
    && (y.o.fingerprint == o.fingerprint && !IsStaleStory(y, o) ==> reply == ReportOf(y, n, now))
    && (y.o.fingerprint == o.fingerprint && IsStaleStory(y, o) ==> !kept)
  }

  lemma StaleIsNoConflict(s: State, n: nat, o: Options, now: nat)
    requires Inv(s) && Held(s, n, now) && Validate(o) == Ok(s.jobs[n].slot) && s.jobs[n].slot.Some?
    requires s.jobs[n].fingerprint == o.fingerprint && IsStale(s.jobs[n], o)
    ensures Started(s, o, now).reply != Refused(Conflict)
  {
    var swept := Reaped(s, now);
    assert n in swept.order;
    assert Existing(swept, s.jobs[n].slot) == Some(n);
  }

  lemma RepeatOfHeld(y: Story, s: State, n: nat, o: Options, now: nat, r: Outcome)
    requires Inv(s) && Held(s, n, now) && JobFollows(y, s.jobs[n]) && r == Started(s, o, now)
    requires Validate(o).Ok? && SlotOf(o).Some? && s.jobs[n].slot == SlotOf(o)
    ensures RepeatTells(r.reply, n in r.state.order, y, n, o, now)
  {
    SlotIsValidated(o);
    StatusMeaning(y, s.jobs[n]);
    StoryIsDescribed(y, s.jobs[n], n, now);
    SlotAnswersWithItsOneJob(s, o, now, n);
    if s.jobs[n].fingerprint == o.fingerprint && IsStale(s.jobs[n], o) {
      StaleIsNoConflict(s, n, o, now);
    }
  }

  /**
   In every run a keyed start of a held job's slot is a conflict if and only if its input differs; with the
   same input it gets the job's story back, unless the caller calls its result stale, which drops the job.
   */
  lemma RepeatIsAnsweredByTheStory(capacity: nat, actions: seq<Action>, n: nat, o: Options, now: nat)
    requires Held(Run(capacity, actions), n, now) && Validate(o).Ok? && SlotOf(o).Some?
    requires Run(capacity, actions).jobs[n].slot == SlotOf(o)
    ensures n in StoriesOf(capacity, actions)
    ensures var r := Started(Run(capacity, actions), o, now);
      RepeatTells(r.reply, n in r.state.order, StoriesOf(capacity, actions)[n], n, o, now)
  {
    EveryJobFollowsItsStory(capacity, actions);
    RepeatOfHeld(StoriesOf(capacity, actions)[n], Run(capacity, actions), n, o, now,
                 Started(Run(capacity, actions), o, now));
  }

  /** Whether a field, if it is given, has between one and 512 characters. */
  predicate IsNamed(field: Option<string>) {
    field.Some? ==> 1 <= |field.value| <= 512
  }

  /**
   A start's options are valid if and only if a key comes with its namespace and a SHA-256 fingerprint of
   its input, and neither comes without a key, and the scope is bounded.
   */
  lemma OptionsAreValidIff(o: Options)
    ensures Validate(o).Ok? <==>
      && IsNamed(o.scope) && IsNamed(o.namespace)
      && (o.key.Some? <==> o.namespace.Some?) && (o.key.Some? <==> o.fingerprint.Some?)
      && (o.key.Some? ==> IsKey(o.key.value) && IsFingerprint(o.fingerprint.value))
    ensures Validate(o).Err? ==> Validate(o).error in {OptionsInvalid, ScopeInvalid}
    ensures Validate(o) == Err(ScopeInvalid) ==> !IsNamed(o.scope)
  {
  }
}
