/**
 Every interleaving of registry calls, completion callbacks and wait timers
 (mcp/ground-control/lib/async-job-registry.js). Clock readings are arbitrary: nothing here needs
 the clock to advance.
 */
module AsyncJobRuns {
  import opened Wrappers
  import opened AsyncJobs

  datatype Action =
    | Start(o: Options, now: nat)
    | Poll(id: string, now: nat)
    | Await(id: string, waitMs: int, now: nat)
    | Cancel(id: string, now: nat)
    | TimerFires(wait: nat, now: nat)
    | Resolve(job: nat, result: int)
    | Reject(job: nat)
    | Finish(job: nat, now: nat)

  predicate Enabled(s: State, a: Action) {
    match a
    case TimerFires(w, _) => w in s.waits && s.waits[w].armed
    case Resolve(n, _) => n in s.jobs && s.jobs[n].status == Running
    case Reject(n) => n in s.jobs && s.jobs[n].status == Running
    case Finish(n, _) => n in s.jobs && s.jobs[n].status != Running && s.jobs[n].finishedAt.None?
    case _ => true
  }

  function Apply(s: State, a: Action): State
    requires Linked(s) && Enabled(s, a)
  {
    match a
    case Start(o, now) => Started(s, o, now).state
    case Poll(id, now) => Polled(s, id, now).state
    case Await(id, waitMs, now) => Awaited(s, id, waitMs, now)
    case Cancel(id, now) => CancelRequested(s, id, now).state
    case TimerFires(w, now) => TimedOut(s, w, now)
    case Resolve(n, result) => Resolved(s, n, result)
    case Reject(n) => Rejected(s, n)
    case Finish(n, now) => Finished(s, n, now)
  }

  /** An action whose callback is not pending does not happen. */
  function Step(s: State, a: Action): State
    requires Linked(s)
  {
    if Enabled(s, a) then Apply(s, a) else s
  }

  // ---- the invariant ------------------------------------------------------------------

  ghost predicate Ascending(s: seq<nat>) {
    forall i, j {:trigger s[i], s[j]} :: 0 <= i < j < |s| ==> s[i] < s[j]
  }

  ghost predicate Ordered(s: State) {
    && Ascending(s.order) && |s.order| <= s.capacity
    && forall n :: n in s.jobs ==> n <= s.serial
  }

  ghost predicate FinishedIsTerminal(s: State) {
    forall n :: n in s.jobs && s.jobs[n].finishedAt.Some? ==> s.jobs[n].status != Running && s.jobs[n].waiters == []
  }

  ghost predicate RunningIsRegistered(s: State) {
    forall n :: n in s.jobs && s.jobs[n].status == Running ==> n in s.order
  }

  ghost predicate SlotsAreUnique(s: State)
    requires Linked(s)
  {
    forall n, m :: n in s.order && m in s.order && s.jobs[n].slot.Some? && s.jobs[n].slot == s.jobs[m].slot ==> n == m
  }

  ghost predicate Overlap(a: Job, b: Job) {
    a.status == Running && b.status == Running && a.scope.Some? && a.scope == b.scope
  }

  /** A single-flight job never runs beside an earlier running job of its scope. */
  ghost predicate SingleFlightHolds(s: State) {
    forall n, m :: n in s.jobs && m in s.jobs && n < m && Overlap(s.jobs[n], s.jobs[m]) ==> !s.jobs[m].singleFlight
  }

  ghost predicate WaitHolds(s: State, w: nat)
    requires w in s.waits
  {
    var wait := s.waits[w];
    && w < s.nextWait && wait.settles <= 1
    && (wait.armed <==> wait.settles == 0) && (wait.answer.Some? <==> wait.settles == 1)
    && (wait.armed ==> wait.job.Some? && wait.job.value in s.jobs && w in s.jobs[wait.job.value].waiters)
  }

  ghost predicate WaitersHold(s: State, n: nat)
    requires n in s.jobs
  {
    && Ascending(s.jobs[n].waiters)
    && forall w :: w in s.jobs[n].waiters ==> w in s.waits && s.waits[w].armed && s.waits[w].job == Some(n)
  }

  ghost predicate WaitsHold(s: State) {
    && (forall w :: w in s.waits ==> WaitHolds(s, w))
    && (forall n :: n in s.jobs ==> WaitersHold(s, n))
  }

  ghost predicate RegistryHolds(s: State) {
    && Linked(s) && Ordered(s) && FinishedIsTerminal(s) && RunningIsRegistered(s)
    && SlotsAreUnique(s) && SingleFlightHolds(s)
  }

  ghost predicate Inv(s: State) {
    RegistryHolds(s) && WaitsHold(s)
  }

  // ---- the registry shrinks: expiry and eviction -----------------------------------------

  lemma AppendAscends(kept: seq<nat>, last: nat)
    requires Ascending(kept)
    requires forall n :: n in kept ==> n < last
    ensures Ascending(kept + [last])
  {
    assert forall i :: 0 <= i < |kept| ==> kept[i] in kept;
  }

  lemma PrefixAscends(order: seq<nat>)
    requires order != [] && Ascending(order)
    ensures Ascending(order[..|order| - 1])
    ensures forall n :: n in order[..|order| - 1] ==> n in order && n < order[|order| - 1]
  {
  }

  lemma {:induction false} UnexpiredAscends(jobs: map<nat, Job>, order: seq<nat>, now: nat)
    requires forall n :: n in order ==> n in jobs
    requires Ascending(order)
    ensures Ascending(Unexpired(jobs, order, now)) && |Unexpired(jobs, order, now)| <= |order|
  {
    if order != [] {
      var last := |order| - 1;
      PrefixAscends(order);
      var before := order[..last];
      UnexpiredAscends(jobs, before, now);
      var kept := Unexpired(jobs, before, now);
      AppendAscends(kept, order[last]);
      assert Unexpired(jobs, order, now) == kept || Unexpired(jobs, order, now) == kept + [order[last]];
    }
  }

  lemma SuffixAscends(order: seq<nat>)
    requires order != [] && Ascending(order)
    ensures Ascending(order[1..])
    ensures forall n :: n in order[1..] ==> n in order && order[0] < n
  {
  }

  lemma PrependAscends(first: nat, kept: seq<nat>)
    requires Ascending(kept)
    requires forall n :: n in kept ==> first < n
    ensures Ascending([first] + kept)
  {
    assert forall i :: 0 <= i < |kept| ==> kept[i] in kept;
  }

  lemma {:induction false} WithoutAscends(order: seq<nat>, n: nat)
    requires Ascending(order)
    ensures Ascending(Without(order, n)) && |Without(order, n)| <= |order|
  {
    if order != [] {
      SuffixAscends(order);
      var rest := order[1..];
      WithoutAscends(rest, n);
      var kept := Without(rest, n);
      PrependAscends(order[0], kept);
      assert [] + kept == kept;
      assert Without(order, n) == if order[0] == n then kept else [order[0]] + kept;
    }
  }

  lemma ShrinkKeepsInv(s: State, kept: seq<nat>)
    requires Inv(s)
    requires Ascending(kept) && |kept| <= |s.order|
    requires forall n :: n in kept ==> n in s.order
    requires forall n :: n in s.order && s.jobs[n].status == Running ==> n in kept
    ensures Inv(s.(order := kept))
  {
    var t := s.(order := kept);
    assert forall w :: w in t.waits ==> WaitHolds(s, w) && WaitHolds(t, w);
    assert forall n :: n in t.jobs ==> WaitersHold(s, n) && WaitersHold(t, n);
  }

  lemma ReapKeepsInv(s: State, now: nat)
    requires Inv(s)
    ensures Inv(Reaped(s, now))
  {
    UnexpiredAscends(s.jobs, s.order, now);
    ShrinkKeepsInv(s, Unexpired(s.jobs, s.order, now));
  }

  lemma EvictKeepsInv(s: State, slot: Option<Slot>, o: Options, now: nat)
    requires Inv(s)
    requires Replay(s, slot, o, now).None?
    ensures Inv(Evicted(s, slot))
    ensures slot.Some? ==> forall n :: n in Evicted(s, slot).order ==> s.jobs[n].slot != slot
  {
    var n := Existing(s, slot);
    if n.Some? {
      WithoutAscends(s.order, n.value);
      ShrinkKeepsInv(s, Without(s.order, n.value));
    }
  }

  // ---- a job changes -----------------------------------------------------------------------

  /** What the callbacks and the abort signal may change of a running job. */
  ghost predicate Progress(before: Job, after: Job) {
    && before.status == Running && before.finishedAt.None?
    && after == before.(status := after.status, result := after.result, aborted := after.aborted)
  }

  /** What the registry's own invariants read of a job, which no callback changes. */
  ghost predicate SameIdentity(before: Job, after: Job) {
    && before.slot == after.slot && before.scope == after.scope && before.singleFlight == after.singleFlight
    && (after.status == Running ==> before.status == Running)
    && (after.finishedAt.Some? ==> after.status != Running && after.waiters == [])
  }

  lemma ChangeKeepsRegistry(s: State, n: nat, after: Job, t: State)
    requires Inv(s) && n in s.jobs && SameIdentity(s.jobs[n], after)
    requires t == s.(jobs := s.jobs[n := after], waits := t.waits, nextWait := t.nextWait)
    requires Linked(t)
    ensures RegistryHolds(t)
  {
    assert forall m :: m in t.jobs ==> m in s.jobs && SameFlight(s.jobs[m], t.jobs[m]);
    assert SingleFlightHolds(t);
  }

  ghost predicate SameFlight(before: Job, after: Job) {
    && before.slot == after.slot && before.scope == after.scope && before.singleFlight == after.singleFlight
    && (after.status == Running ==> before.status == Running)
  }

  lemma ProgressKeepsInv(s: State, n: nat, after: Job)
    requires Inv(s) && n in s.jobs
    requires Progress(s.jobs[n], after)
    ensures Inv(s.(jobs := s.jobs[n := after]))
  {
    var t := s.(jobs := s.jobs[n := after]);
    ChangeKeepsRegistry(s, n, after, t);
    forall m | m in t.jobs ensures WaitersHold(t, m) {
      assert WaitersHold(s, m);
    }
    forall w | w in t.waits ensures WaitHolds(t, w) {
      assert WaitHolds(s, w);
    }
  }

  lemma RunningIsUnfinished(s: State, n: nat)
    requires Inv(s) && n in s.jobs && s.jobs[n].status == Running
    ensures s.jobs[n].finishedAt.None?
  {
  }

  // ---- a job starts --------------------------------------------------------------------------

  lemma CreateKeepsRegistry(s: State, slot: Option<Slot>, o: Options, now: nat)
    requires Inv(s)
    requires slot.Some? ==> forall n :: n in s.order ==> s.jobs[n].slot != slot
    requires !(o.singleFlight && ScopeIsBusy(s, o.scope)) && |s.order| < s.capacity
    ensures RegistryHolds(Create(s, slot, o, now).state)
  {
    var t := Create(s, slot, o, now).state;
    var m := s.serial + 1;
    assert m !in s.jobs && m !in s.order;
    assert forall n :: n in t.order <==> n in s.order || n == m;
    CreateKeepsLinks(s, slot, o, now);
    CreateKeepsFlight(s, slot, o, now);
    CreateKeepsSlots(s, slot, o, now);
  }

  lemma CreateKeepsLinks(s: State, slot: Option<Slot>, o: Options, now: nat)
    requires Inv(s)
    ensures Linked(Create(s, slot, o, now).state) && Ascending(Create(s, slot, o, now).state.order)
  {
    var t := Create(s, slot, o, now).state;
    assert forall n :: n in t.order ==> n in s.order || n == s.serial + 1;
    assert forall i :: 0 <= i < |s.order| ==> s.order[i] in s.order;
  }

  lemma CreateKeepsFlight(s: State, slot: Option<Slot>, o: Options, now: nat)
    requires Inv(s)
    requires !(o.singleFlight && ScopeIsBusy(s, o.scope))
    ensures SingleFlightHolds(Create(s, slot, o, now).state)
  {
    var t := Create(s, slot, o, now).state;
    forall n, m | n in t.jobs && m in t.jobs && n < m && Overlap(t.jobs[n], t.jobs[m])
      ensures !t.jobs[m].singleFlight
    {
      if m == s.serial + 1 {
        assert n in s.order && s.jobs[n].scope == o.scope;
      }
    }
  }

  lemma CreateKeepsSlots(s: State, slot: Option<Slot>, o: Options, now: nat)
    requires Inv(s)
    requires slot.Some? ==> forall n :: n in s.order ==> s.jobs[n].slot != slot
    requires Linked(Create(s, slot, o, now).state)
    ensures SlotsAreUnique(Create(s, slot, o, now).state)
  {
    var t := Create(s, slot, o, now).state;
    assert forall n :: n in t.order ==> n in s.order || n == s.serial + 1;
    assert forall n :: n in s.order ==> n != s.serial + 1;
  }

  lemma CreateKeepsWaits(s: State, slot: Option<Slot>, o: Options, now: nat)
    requires Inv(s)
    ensures WaitsHold(Create(s, slot, o, now).state)
  {
    var t := Create(s, slot, o, now).state;
    assert s.serial + 1 !in s.jobs;
    assert forall w :: w in t.waits ==> WaitHolds(s, w) && WaitHolds(t, w);
    forall n | n in t.jobs ensures WaitersHold(t, n) {
      if n != s.serial + 1 {
        assert WaitersHold(s, n);
      }
    }
  }

  lemma StartKeepsInv(s: State, o: Options, now: nat)
    requires Inv(s)
    ensures Inv(Started(s, o, now).state)
  {
    var validated := Validate(o);
    if validated.Ok? {
      var slot := validated.value;
      var swept := Reaped(s, now);
      ReapKeepsInv(s, now);
      if Replay(swept, slot, o, now).None? {
        EvictKeepsInv(swept, slot, o, now);
        AdmitKeepsInv(Evicted(swept, slot), slot, o, now);
      }
    }
  }

  lemma AdmitKeepsInv(s: State, slot: Option<Slot>, o: Options, now: nat)
    requires Inv(s)
    requires slot.Some? ==> forall n :: n in s.order ==> s.jobs[n].slot != slot
    ensures Inv(Admit(s, slot, o, now).state)
  {
    if !(o.singleFlight && ScopeIsBusy(s, o.scope)) && |s.order| < s.capacity {
      CreateKeepsRegistry(s, slot, o, now);
      CreateKeepsWaits(s, slot, o, now);
    }
  }

  // ---- waits -----------------------------------------------------------------------------------

  lemma WaitsAreNumbered(s: State)
    requires Inv(s)
    ensures forall w :: w in s.waits ==> w < s.nextWait
  {
    forall w | w in s.waits ensures w < s.nextWait {
      assert WaitHolds(s, w);
    }
  }

  lemma AnswerKeepsInv(s: State, reply: Envelope)
    requires Inv(s)
    ensures Inv(Answered(s, reply))
  {
    var t := Answered(s, reply);
    WaitsAreNumbered(s);
    forall n | n in t.jobs ensures WaitersHold(t, n) {
      assert WaitersHold(s, n);
    }
    forall w | w in t.waits ensures WaitHolds(t, w) {
      if w != s.nextWait {
        assert WaitHolds(s, w);
      }
    }
  }

  lemma ParkKeepsInv(s: State, n: nat)
    requires Inv(s) && n in s.jobs && s.jobs[n].status == Running
    ensures Inv(Parked(s, n))
  {
    var t := Parked(s, n);
    RunningIsUnfinished(s, n);
    WaitsAreNumbered(s);
    ChangeKeepsRegistry(s, n, t.jobs[n], t);
    assert WaitersHold(s, n);
    AppendAscends(s.jobs[n].waiters, s.nextWait);
    forall m | m in t.jobs ensures WaitersHold(t, m) {
      assert WaitersHold(s, m);
    }
    forall w | w in t.waits ensures WaitHolds(t, w) {
      if w != s.nextWait {
        assert WaitHolds(s, w);
      }
    }
  }

  lemma AwaitKeepsInv(s: State, id: string, waitMs: int, now: nat)
    requires Inv(s)
    ensures Inv(Awaited(s, id, waitMs, now))
  {
    ReapKeepsInv(s, now);
    if waitMs <= 0 || waitMs > WAIT_MAX_MS {
      AnswerKeepsInv(s, Refused(WaitInvalid));
    } else {
      var poll := Polled(s, id, now);
      var n := Lookup(poll.state, id);
      if n.Some? && poll.state.jobs[n.value].status == Running {
        ParkKeepsInv(poll.state, n.value);
      } else {
        AnswerKeepsInv(poll.state, poll.reply);
      }
    }
  }

  lemma TimeoutKeepsWaits(s: State, w: nat, now: nat)
    requires Inv(s) && w in s.waits && s.waits[w].armed
    ensures WaitsHold(TimedOut(s, w, now))
  {
    var t := TimedOut(s, w, now);
    assert WaitHolds(s, w);
    var n := s.waits[w].job.value;
    forall m | m in t.jobs ensures WaitersHold(t, m) {
      assert WaitersHold(s, m);
      if m == n {
        WithoutAscends(s.jobs[n].waiters, w);
      }
    }
    forall v | v in t.waits ensures WaitHolds(t, v) {
      assert WaitHolds(s, v);
    }
  }

  lemma WaitsKeepLinks(s: State)
    requires WaitsHold(s)
    requires forall n :: n in s.order ==> n in s.jobs
    ensures Linked(s)
  {
    forall n, w | n in s.jobs && w in s.jobs[n].waiters ensures w in s.waits {
      assert WaitersHold(s, n);
    }
    forall w | w in s.waits && s.waits[w].armed ensures s.waits[w].job.Some? && s.waits[w].job.value in s.jobs {
      assert WaitHolds(s, w);
    }
  }

  lemma TimeoutKeepsInv(s: State, w: nat, now: nat)
    requires Inv(s) && w in s.waits && s.waits[w].armed
    ensures Inv(TimedOut(s, w, now))
  {
    var t := TimedOut(s, w, now);
    assert WaitHolds(s, w);
    var n := s.waits[w].job.value;
    TimeoutKeepsWaits(s, w, now);
    WaitsKeepLinks(t);
    ChangeKeepsRegistry(s, n, t.jobs[n], t);
  }

  // ---- completion ----------------------------------------------------------------------------------

  /** Releasing distinct waits settles each of them once and touches no other. */
  lemma {:induction false} ReleaseMeaning(waits: map<nat, Wait>, outstanding: seq<nat>, reply: Envelope)
    requires Ascending(outstanding)
    requires forall w :: w in outstanding ==> w in waits
    ensures var r := Release(waits, outstanding, reply);
      && r.Keys == waits.Keys
      && forall w :: w in waits ==> r[w] == if w in outstanding then SettledWait(waits[w], reply) else waits[w]
    decreases |outstanding|
  {
    if outstanding != [] {
      var first, rest := outstanding[0], outstanding[1..];
      assert forall w :: w in rest ==> first < w;
      ReleaseMeaning(waits[first := SettledWait(waits[first], reply)], rest, reply);
      assert forall w :: w in outstanding <==> w == first || w in rest;
    }
  }

  lemma FinishKeepsInv(s: State, n: nat, now: nat)
    requires Inv(s) && Enabled(s, Finish(n, now))
    ensures Inv(Finished(s, n, now))
  {
    var t := Finished(s, n, now);
    assert WaitersHold(s, n);
    ReleaseMeaning(s.waits, s.jobs[n].waiters, Describe(n, t.jobs[n], now));
    forall w | w in t.waits ensures WaitHolds(t, w) {
      assert WaitHolds(s, w);
    }
    forall m | m in t.jobs ensures WaitersHold(t, m) {
      assert WaitersHold(s, m);
    }
    WaitsKeepLinks(t);
    ChangeKeepsRegistry(s, n, t.jobs[n], t);
  }

  // ---- every run -------------------------------------------------------------------------------------

  lemma StepKeepsInv(s: State, a: Action)
    requires Inv(s)
    ensures Inv(Step(s, a))
  {
    if Enabled(s, a) {
      match a
      case Start(o, now) => StartKeepsInv(s, o, now);
      case Poll(id, now) => ReapKeepsInv(s, now);
      case Await(id, waitMs, now) => AwaitKeepsInv(s, id, waitMs, now);
      case Cancel(id, now) => CancelKeepsInv(s, id, now);
      case TimerFires(w, now) => TimeoutKeepsInv(s, w, now);
      case Resolve(n, result) =>
        RunningIsUnfinished(s, n);
        ProgressKeepsInv(s, n, s.jobs[n].(status := Done, result := result));
      case Reject(n) =>
        RunningIsUnfinished(s, n);
        ProgressKeepsInv(s, n, s.jobs[n].(status := if s.jobs[n].aborted then Cancelled else Failed));
      case Finish(n, now) => FinishKeepsInv(s, n, now);
    }
  }

  lemma CancelKeepsInv(s: State, id: string, now: nat)
    requires Inv(s)
    ensures Inv(CancelRequested(s, id, now).state)
  {
    ReapKeepsInv(s, now);
    var swept := Reaped(s, now);
    var n := Lookup(swept, id);
    if n.Some? && swept.jobs[n.value].status == Running {
      RunningIsUnfinished(swept, n.value);
      ProgressKeepsInv(swept, n.value, swept.jobs[n.value].(aborted := true));
    }
  }

  function Initial(capacity: nat): (s: State)
    ensures Inv(s)
  {
    State(map[], [], capacity, 0, map[], 0)
  }

  function Run(capacity: nat, actions: seq<Action>): (s: State)
    ensures Inv(s)
    decreases |actions|
  {
    if actions == [] then Initial(capacity)
    else
      var before := Run(capacity, actions[..|actions| - 1]);
      StepKeepsInv(before, actions[|actions| - 1]);
      Step(before, actions[|actions| - 1])
  }

  // ---- no lost wakeup ------------------------------------------------------------------------------

  /**
   In every run each awaited promise has settled at most once, with one answer, and an unsettled one
   still has its timer and sits among the waiters of a job that is not finished.
   */
  lemma EveryWaitIsSettledOrPending(capacity: nat, actions: seq<Action>, w: nat)
    requires w in Run(capacity, actions).waits
    ensures var s := Run(capacity, actions);
      var wait := s.waits[w];
      && wait.settles <= 1 && (wait.answer.Some? <==> wait.settles == 1)
      && (wait.settles == 0 ==>
            && wait.armed && wait.job.Some? && wait.job.value in s.jobs
            && w in s.jobs[wait.job.value].waiters && s.jobs[wait.job.value].finishedAt.None?)
  {
    assert WaitHolds(Run(capacity, actions), w);
  }

  /** A job's last callback settles exactly its own pending waits, each with a terminal report. */
  lemma CompletionReleasesEveryWaiter(s: State, n: nat, now: nat)
    requires Inv(s) && Enabled(s, Finish(n, now))
    ensures var t := Step(s, Finish(n, now));
      && t.jobs[n].waiters == [] && t.waits.Keys == s.waits.Keys
      && forall w :: w in s.waits ==>
           if s.waits[w].armed && s.waits[w].job == Some(n)
           then t.waits[w] == Wait(false, Some(n), 1,
                  Some(Report(n, s.jobs[n].status, now - s.jobs[n].startedAt, s.jobs[n].result)))
           else t.waits[w] == s.waits[w]
  {
    assert WaitersHold(s, n);
    var t := Finished(s, n, now);
    ReleaseMeaning(s.waits, s.jobs[n].waiters, Describe(n, t.jobs[n], now));
    forall w | w in s.waits
      ensures w in s.jobs[n].waiters <==> s.waits[w].armed && s.waits[w].job == Some(n)
      ensures s.waits[w].armed ==> s.waits[w].settles == 0 && s.waits[w].answer.None?
    {
      assert WaitHolds(s, w);
    }
  }

  /** No job object and no wait is touched, apart from new ones. */
  ghost predicate OnlyAdds(s: State, t: State) {
    t.waits == s.waits && forall n :: n in s.jobs ==> n in t.jobs && t.jobs[n] == s.jobs[n]
  }

  lemma AdmitOnlyAdds(s: State, slot: Option<Slot>, o: Options, now: nat)
    requires Linked(s) && s.serial + 1 !in s.jobs
    ensures OnlyAdds(s, Admit(s, slot, o, now).state)
    ensures forall n :: n in s.order ==> n in Admit(s, slot, o, now).state.order
  {
  }

  /** A start adds at most one job object, and touches no other and no wait. */
  lemma StartOnlyAdds(s: State, o: Options, now: nat)
    requires Inv(s)
    ensures OnlyAdds(s, Started(s, o, now).state)
  {
    assert s.serial + 1 !in s.jobs;
    var validated := Validate(o);
    if validated.Ok? {
      var swept := Reaped(s, now);
      if Replay(swept, validated.value, o, now).None? {
        AdmitOnlyAdds(Evicted(swept, validated.value), validated.value, o, now);
      }
    }
  }

  /** A settled promise never settles again and never changes its answer. */
  lemma AnswersAreFinal(s: State, a: Action, w: nat)
    requires Inv(s) && w in s.waits && !s.waits[w].armed
    ensures w in Step(s, a).waits && Step(s, a).waits[w] == s.waits[w]
  {
    if Enabled(s, a) {
      match a
      case Start(o, now) => StartOnlyAdds(s, o, now);
      case Await(id, waitMs, now) => AwaitKeepsWaits(s, id, waitMs, now, w);
      case Finish(n, now) => CompletionReleasesEveryWaiter(s, n, now);
      case _ =>
    }
  }

  lemma AwaitKeepsWaits(s: State, id: string, waitMs: int, now: nat, w: nat)
    requires Inv(s) && w in s.waits
    ensures var t := Awaited(s, id, waitMs, now);
      w in t.waits && t.waits[w] == s.waits[w]
  {
    WaitsAreNumbered(s);
  }

  /** A timer settles its own promise with the job as it stands, and nothing else. */
  lemma TimeoutSettlesItsWait(s: State, w: nat, now: nat)
    requires Inv(s) && Enabled(s, TimerFires(w, now))
    ensures var t := Step(s, TimerFires(w, now));
      var n := s.waits[w].job.value;
      && t.waits == s.waits[w := Wait(false, Some(n), 1, Some(Describe(n, s.jobs[n], now)))]
      && t.order == s.order && t.jobs[n] == s.jobs[n].(waiters := t.jobs[n].waiters)
      && w !in t.jobs[n].waiters
  {
    assert WaitHolds(s, w);
  }

  // ---- what one step leaves alone -------------------------------------------------------------------

  /** How a job object may change over time. */
  ghost predicate Later(before: Job, after: Job) {
    && (before.status != Running ==> after.status == before.status && after.result == before.result)
    && (before.finishedAt.Some? ==> after.finishedAt == before.finishedAt)
    && after.startedAt == before.startedAt && after.slot == before.slot
    && after.fingerprint == before.fingerprint && after.scope == before.scope
  }

  lemma CancelOnlySignals(s: State, id: string, now: nat, n: nat)
    requires Inv(s) && n in s.jobs
    ensures var t := CancelRequested(s, id, now).state;
      n in t.jobs && (t.jobs[n] == s.jobs[n] || t.jobs[n] == s.jobs[n].(aborted := true))
  {
  }

  lemma AwaitOnlyParks(s: State, id: string, waitMs: int, now: nat, n: nat)
    requires Inv(s) && n in s.jobs
    ensures var t := Awaited(s, id, waitMs, now);
      n in t.jobs && t.jobs[n] == s.jobs[n].(waiters := t.jobs[n].waiters)
  {
  }

  /** Terminal statuses, results and finishing times never change, and no job object disappears. */
  lemma TerminalNeverReverts(s: State, a: Action, n: nat)
    requires Inv(s) && n in s.jobs
    ensures n in Step(s, a).jobs && Later(s.jobs[n], Step(s, a).jobs[n])
  {
    if Enabled(s, a) {
      match a
      case Start(o, now) => StartOnlyAdds(s, o, now);
      case Cancel(id, now) => CancelOnlySignals(s, id, now, n);
      case Await(id, waitMs, now) => AwaitOnlyParks(s, id, waitMs, now, n);
      case _ =>
    }
  }

  function Clock(a: Action): nat {
    if a.Resolve? || a.Reject? then 0 else a.now
  }

  /** Every call but a start leaves the registry's order alone, or sweeps it. */
  lemma OthersOnlyReap(s: State, a: Action)
    requires Linked(s) && !a.Start?
    ensures Step(s, a).order == s.order || (!a.Resolve? && !a.Reject? && Step(s, a).order == Reaped(s, Clock(a)).order)
  {
    if Enabled(s, a) {
      match a
      case Poll(id, now) => assert Polled(s, id, now).state == Reaped(s, now);
      case Await(id, waitMs, now) => assert Polled(s, id, now).state == Reaped(s, now);
      case Cancel(id, now) => assert CancelRequested(s, id, now).state.order == Reaped(s, now).order;
      case _ =>
    }
  }

  /** What a keyed start finds stale. */
  ghost predicate DeclaredStale(j: Job, o: Options) {
    IsStale(j, o) && j.slot.Some? && Validate(o) == Ok(j.slot) && j.fingerprint == o.fingerprint
  }

  lemma StaleJobWasEvicted(s: State, o: Options, now: nat, n: nat)
    requires Inv(s) && n in s.order && n !in Started(s, o, now).state.order
    requires !Expired(s.jobs[n], now)
    ensures DeclaredStale(s.jobs[n], o)
  {
    var swept := Reaped(s, now);
    var slot := Validate(o).value;
    assert swept.serial + 1 !in swept.jobs;
    assert n in swept.order;
    AdmitOnlyAdds(Evicted(swept, slot), slot, o, now);
    assert Existing(swept, slot) == Some(n);
  }

  /**
   A job leaves the registry only when its retention has run out, or when a keyed start with the same
   slot and input declares its result stale. A running job never leaves.
   */
  lemma OnlyExpiredOrStaleJobsLeave(s: State, a: Action, n: nat)
    requires Inv(s) && n in s.order && n !in Step(s, a).order
    ensures s.jobs[n].status != Running
    ensures Expired(s.jobs[n], Clock(a)) || (a.Start? && DeclaredStale(s.jobs[n], a.o))
  {
    if !a.Start? {
      OthersOnlyReap(s, a);
    } else if !Expired(s.jobs[n], a.now) {
      StaleJobWasEvicted(s, a.o, a.now, n);
    }
  }

  // ---- idempotency and single flight -----------------------------------------------------------------

  /**
   While the slot's job is retained, every keyed start gets that job back, or a conflict when the
   input differs; only a stale result lets a new job start.
   */
  lemma SlotAnswersWithItsOneJob(s: State, o: Options, now: nat, n: nat)
    requires Inv(s) && n in s.order && s.jobs[n].slot.Some?
    requires Validate(o) == Ok(s.jobs[n].slot) && !Expired(s.jobs[n], now)
    ensures Started(s, o, now).reply == Refused(Conflict) <== s.jobs[n].fingerprint != o.fingerprint
    ensures (s.jobs[n].fingerprint == o.fingerprint && !IsStale(s.jobs[n], o)
      ==> Started(s, o, now) == Outcome(Reaped(s, now), Describe(n, s.jobs[n], now)))
    ensures (s.jobs[n].fingerprint == o.fingerprint && IsStale(s.jobs[n], o)
      ==> n !in Started(s, o, now).state.order)
  {
    ReapKeepsInv(s, now);
    var swept := Reaped(s, now);
    assert n in swept.order;
    var found := Existing(swept, s.jobs[n].slot);
    assert found == Some(n) by {
      assert found.Some?;
    }
  }

  /** In every run no two registered jobs share a slot, and the registry stays within its capacity. */
  lemma RegistryIsSoundInEveryRun(capacity: nat, actions: seq<Action>)
    ensures var s := Run(capacity, actions);
      && |s.order| <= capacity
      && (forall n, m :: n in s.order && m in s.order && s.jobs[n].slot.Some? && s.jobs[n].slot == s.jobs[m].slot
            ==> n == m)
      && (forall n :: n in s.jobs && s.jobs[n].status == Running ==> n in s.order)
      && (forall n :: n in s.jobs && s.jobs[n].finishedAt.Some?
            ==> s.jobs[n].status != Running && s.jobs[n].waiters == [])
  {
    CapacityIsFixed(capacity, actions);
  }

  lemma {:induction false} CapacityIsFixed(capacity: nat, actions: seq<Action>)
    ensures Run(capacity, actions).capacity == capacity
    decreases |actions|
  {
    if actions != [] {
      CapacityIsFixed(capacity, actions[..|actions| - 1]);
      StepKeepsCapacity(Run(capacity, actions[..|actions| - 1]), actions[|actions| - 1]);
    }
  }

  lemma StepKeepsCapacity(s: State, a: Action)
    requires Linked(s)
    ensures Step(s, a).capacity == s.capacity
  {
  }

  /** In every run at most one job of a scope is running, if every job of the scope is single-flight. */
  lemma ScopeRunsOneJobAtATime(capacity: nat, actions: seq<Action>, scope: string, n: nat, m: nat)
    requires var s := Run(capacity, actions);
      && n in s.jobs && m in s.jobs && s.jobs[n].scope == Some(scope) && s.jobs[m].scope == Some(scope)
      && s.jobs[n].status == Running && s.jobs[m].status == Running
      && s.jobs[n].singleFlight && s.jobs[m].singleFlight
    ensures n == m
  {
    var s := Run(capacity, actions);
    assert SingleFlightHolds(s);
    assert Overlap(s.jobs[n], s.jobs[m]) && Overlap(s.jobs[m], s.jobs[n]);
  }

  lemma RunAppend(capacity: nat, actions: seq<Action>, a: Action)
    ensures Run(capacity, actions + [a]) == Step(Run(capacity, actions), a)
  {
    assert (actions + [a])[..|actions|] == actions;
  }

  lemma UnexpiredKeepsLive(jobs: map<nat, Job>, order: seq<nat>, now: nat)
    requires forall n :: n in order ==> n in jobs && jobs[n].finishedAt.None?
    ensures Unexpired(jobs, order, now) == order
  {
  }

  /** A start without a key succeeds whenever there is room and its scope does not stop it. */
  lemma UnkeyedStartSucceeds(s: State, o: Options, now: nat)
    requires Inv(s) && Validate(o) == Ok(None)
    requires forall n :: n in s.order ==> s.jobs[n].finishedAt.None?
    requires |s.order| < s.capacity && (o.singleFlight ==> !ScopeIsBusy(s, o.scope))
    ensures Step(s, Start(o, now)) == Create(s, None, o, now).state
  {
    UnexpiredKeepsLive(s.jobs, s.order, now);
  }

  /** The exception: a job that is not single-flight does start beside a running one of its scope. */
  lemma UnguardedStartOverlaps(scope: string)
    requires 0 < |scope| <= 512
    ensures var guarded := Options(None, None, None, Some(scope), true, true, None);
      var s := Run(2, [Start(guarded, 0), Start(guarded.(singleFlight := false), 0)]);
      1 in s.jobs && 2 in s.jobs && Overlap(s.jobs[1], s.jobs[2])
  {
    var guarded := Options(None, None, None, Some(scope), true, true, None);
    var free := guarded.(singleFlight := false);
    var first := [Start(guarded, 0)];
    assert [] + first == first && first + [Start(free, 0)] == [Start(guarded, 0), Start(free, 0)];
    RunAppend(2, [], Start(guarded, 0));
    RunAppend(2, first, Start(free, 0));
    UnkeyedStartSucceeds(Initial(2), guarded, 0);
    var s1 := Run(2, first);
    assert s1 == Create(Initial(2), None, guarded, 0).state;
    UnkeyedStartSucceeds(s1, free, 0);
    assert Run(2, first + [Start(free, 0)]) == Create(s1, None, free, 0).state;
  }
}
