/**
 The asynchronous job registry (mcp/ground-control/lib/async-job-registry.js): starts, replays,
 polls, bounded waits, cancellation and expiry, interleaved with completions and timers.
 */
module AsyncJobs {
  import opened Wrappers

  const TTL_MS := 30 * 60 * 1000
  const HANDLE_MAX := 80
  const KEY_MAX := 128
  const WAIT_MAX_MS := 1800 * 1000

  // ---- handles -------------------------------------------------------------------

  predicate IsHandleChar(c: char) {
    '0' <= c <= '9' || 'a' <= c <= 'z'
  }

  predicate IsHandlePart(s: string) {
    s != [] && forall i :: 0 <= i < |s| ==> IsHandleChar(s[i])
  }

  function Digit36(d: int): char
    requires 0 <= d < 36
  {
    if d < 10 then ('0' as int + d) as char else ('a' as int + d - 10) as char
  }

  function Value36(c: char): int {
    if c <= '9' then c as int - '0' as int else c as int - 'a' as int + 10
  }

  function Base36(n: nat): string {
    if n < 36 then [Digit36(n)] else Base36(n / 36) + [Digit36(n % 36)]
  }

  function FromBase36(s: string): int {
    if s == [] then 0 else FromBase36(s[..|s| - 1]) * 36 + Value36(s[|s| - 1])
  }

  function JobId(startedAt: nat, serial: nat): string {
    "job-" + (Base36(startedAt) + ("-" + Base36(serial)))
  }

  /** The shape test every handle passes before it is looked up. */
  predicate ValidHandle(id: string) {
    && |id| <= HANDLE_MAX
    && exists i :: 4 < i < |id| && id[..4] == "job-" && id[i] == '-'
         && IsHandlePart(id[4..i]) && IsHandlePart(id[i + 1..])
  }

  lemma {:induction false} Base36RoundTrip(n: nat)
    ensures IsHandlePart(Base36(n)) && FromBase36(Base36(n)) == n
  {
    var s := Base36(n);
    if n < 36 {
      assert s[..0] == [];
    } else {
      Base36RoundTrip(n / 36);
      assert s[..|s| - 1] == Base36(n / 36);
    }
  }

  lemma DashSplits(a: string, b: string, c: string, d: string)
    requires IsHandlePart(a) && IsHandlePart(c)
    requires a + ("-" + b) == c + ("-" + d)
    ensures a == c && b == d
  {
    var s := a + ("-" + b);
    assert s[|a|] == '-' && s[|c|] == '-';
    assert forall i :: 0 <= i < |a| ==> s[i] == a[i];
    assert forall i :: 0 <= i < |c| ==> s[i] == c[i];
    assert s[..|a|] == a && s[..|c|] == c;
    assert s[|a| + 1..] == b && s[|c| + 1..] == d;
  }

  /** Two jobs share a handle only if they are the same job. */
  lemma HandlesAreUnique(startedAt: nat, serial: nat, otherStart: nat, otherSerial: nat)
    ensures JobId(startedAt, serial) == JobId(otherStart, otherSerial)
      <==> startedAt == otherStart && serial == otherSerial
  {
    Base36RoundTrip(startedAt);
    Base36RoundTrip(otherStart);
    Base36RoundTrip(serial);
    Base36RoundTrip(otherSerial);
    if JobId(startedAt, serial) == JobId(otherStart, otherSerial) {
      assert JobId(startedAt, serial)[4..] == Base36(startedAt) + ("-" + Base36(serial));
      assert JobId(otherStart, otherSerial)[4..] == Base36(otherStart) + ("-" + Base36(otherSerial));
      DashSplits(Base36(startedAt), Base36(serial), Base36(otherStart), Base36(otherSerial));
    }
  }

  function Pow36(k: nat): nat {
    if k == 0 then 1 else 36 * Pow36(k - 1)
  }

  lemma {:induction false} Base36IsShort(n: nat, k: nat)
    requires k > 0 && n < Pow36(k)
    ensures |Base36(n)| <= k
  {
    if n >= 36 {
      assert Pow36(1) == 36;
      Base36IsShort(n / 36, k - 1);
    }
  }

  /** Every integer a JavaScript number holds exactly. */
  const SAFE_INTEGERS := 0x20_0000_0000_0000

  /** No handle the registry gives out is refused by the shape test. */
  lemma HandlesAreAccepted(startedAt: nat, serial: nat)
    requires startedAt < SAFE_INTEGERS && serial < SAFE_INTEGERS
    ensures ValidHandle(JobId(startedAt, serial))
  {
    assert Pow36(11) >= SAFE_INTEGERS;
    Base36IsShort(startedAt, 11);
    Base36IsShort(serial, 11);
    Base36RoundTrip(startedAt);
    Base36RoundTrip(serial);
    var id := JobId(startedAt, serial);
    var i := 4 + |Base36(startedAt)|;
    assert id[..4] == "job-" && id[i] == '-';
    assert id[4..i] == Base36(startedAt) && id[i + 1..] == Base36(serial);
  }

  // ---- state -----------------------------------------------------------------------

  datatype Status = Running | Done | Failed | Cancelled

  datatype Slot = Slot(namespace: string, key: string)

  /** A job object. It lives on in its own callbacks after the registry drops it. */
  datatype Job = Job(status: Status, startedAt: nat, finishedAt: Option<nat>, result: int, cancellable: bool,
                     slot: Option<Slot>, fingerprint: Option<string>, scope: Option<string>, singleFlight: bool,
                     aborted: bool, waiters: seq<nat>)

  datatype Refusal =
    | OptionsInvalid | ScopeInvalid | Conflict | Contended | CapacityExhausted | NotFound | WaitInvalid | NotCancellable

  datatype Envelope =
    | Report(job: nat, status: Status, elapsed: int, result: int)
    | Refused(error: Refusal)
    | Cancelling(job: nat)
    | AlreadyTerminal(job: nat, status: Status)

  /** One awaitAsyncJob promise: its timer, how often it settled, and what it settled with. */
  datatype Wait = Wait(armed: bool, job: Option<nat>, settles: nat, answer: Option<Envelope>)

  /** `order` is the registry map in insertion order; `jobs` holds every job object ever created. */
  datatype State = State(jobs: map<nat, Job>, order: seq<nat>, capacity: nat, serial: nat,
                         waits: map<nat, Wait>, nextWait: nat)

  datatype Outcome = Outcome(state: State, reply: Envelope)

  predicate Linked(s: State) {
    && (forall n :: n in s.order ==> n in s.jobs)
    && (forall n, w :: n in s.jobs && w in s.jobs[n].waiters ==> w in s.waits)
    && (forall w :: w in s.waits && s.waits[w].armed ==> s.waits[w].job.Some? && s.waits[w].job.value in s.jobs)
  }

  function Describe(n: nat, j: Job, now: nat): Envelope {
    Report(n, j.status, (if j.finishedAt.Some? then j.finishedAt.value else now) - j.startedAt, j.result)
  }

  // ---- expiry ------------------------------------------------------------------------

  predicate Expired(j: Job, now: nat) {
    j.finishedAt.Some? && now - j.finishedAt.value > TTL_MS
  }

  function Unexpired(jobs: map<nat, Job>, order: seq<nat>, now: nat): (kept: seq<nat>)
    requires forall n :: n in order ==> n in jobs
    ensures forall n :: n in kept <==> n in order && !Expired(jobs[n], now)
  {
    if order == [] then []
    else
      var last := order[|order| - 1];
      Unexpired(jobs, order[..|order| - 1], now) + if Expired(jobs[last], now) then [] else [last]
  }

  function Reaped(s: State, now: nat): (r: State)
    requires Linked(s)
    ensures Linked(r) && r == s.(order := r.order)
    ensures forall n :: n in r.order <==> n in s.order && !Expired(s.jobs[n], now)
  {
    s.(order := Unexpired(s.jobs, s.order, now))
  }

  // ---- lookups -------------------------------------------------------------------------

  function FindHandle(jobs: map<nat, Job>, order: seq<nat>, id: string): (r: Option<nat>)
    requires forall n :: n in order ==> n in jobs
    ensures r.Some? ==> r.value in order && JobId(jobs[r.value].startedAt, r.value) == id
    ensures r.None? ==> forall n :: n in order ==> JobId(jobs[n].startedAt, n) != id
  {
    if order == [] then None
    else if JobId(jobs[order[0]].startedAt, order[0]) == id then Some(order[0])
    else FindHandle(jobs, order[1..], id)
  }

  function Lookup(s: State, id: string): (r: Option<nat>)
    requires Linked(s)
    ensures r.Some? ==> r.value in s.order
  {
    if ValidHandle(id) then FindHandle(s.jobs, s.order, id) else None
  }

  /** A handle finds its own job for as long as the registry holds the job, and nothing afterwards. */
  lemma HandleFindsItsJob(s: State, n: nat)
    requires Linked(s) && n in s.jobs
    requires n < SAFE_INTEGERS && s.jobs[n].startedAt < SAFE_INTEGERS
    ensures Lookup(s, JobId(s.jobs[n].startedAt, n)) == if n in s.order then Some(n) else None
  {
    HandlesAreAccepted(s.jobs[n].startedAt, n);
    var r := Lookup(s, JobId(s.jobs[n].startedAt, n));
    if r.Some? {
      HandlesAreUnique(s.jobs[n].startedAt, n, s.jobs[r.value].startedAt, r.value);
    }
  }

  function FindSlot(jobs: map<nat, Job>, order: seq<nat>, slot: Slot): (r: Option<nat>)
    requires forall n :: n in order ==> n in jobs
    ensures r.Some? ==> r.value in order && jobs[r.value].slot == Some(slot)
    ensures r.None? ==> forall n :: n in order ==> jobs[n].slot != Some(slot)
  {
    if order == [] then None
    else if jobs[order[0]].slot == Some(slot) then Some(order[0])
    else FindSlot(jobs, order[1..], slot)
  }

  function Without(order: seq<nat>, n: nat): (r: seq<nat>)
    ensures forall m :: m in r <==> m in order && m != n
  {
    if order == [] then []
    else (if order[0] == n then [] else [order[0]]) + Without(order[1..], n)
  }

  // ---- starting a job ------------------------------------------------------------------

  /** `staleVerdict` is what the caller's retryStaleResult says about the earlier result. */
  datatype Options = Options(key: Option<string>, namespace: Option<string>, fingerprint: Option<string>,
                             scope: Option<string>, singleFlight: bool, cancellable: bool, staleVerdict: Option<bool>)

  predicate IsKeyStart(c: char) {
    '0' <= c <= '9' || 'a' <= c <= 'z' || 'A' <= c <= 'Z'
  }

  predicate IsKeyChar(c: char) {
    IsKeyStart(c) || c == '.' || c == '_' || c == ':' || c == '-'
  }

  predicate IsKey(s: string) {
    0 < |s| <= KEY_MAX && IsKeyStart(s[0]) && forall i :: 1 <= i < |s| ==> IsKeyChar(s[i])
  }

  predicate IsFingerprint(s: string) {
    |s| == 64 && forall i :: 0 <= i < 64 ==> '0' <= s[i] <= '9' || 'a' <= s[i] <= 'f'
  }

  function Validate(o: Options): Result<Option<Slot>, Refusal> {
    if o.key.Some? then
      if !IsKey(o.key.value) || o.namespace.None? || !(0 < |o.namespace.value| <= 512)
         || o.fingerprint.None? || !IsFingerprint(o.fingerprint.value) then Err(OptionsInvalid)
      else if o.scope.Some? && !(0 < |o.scope.value| <= 512) then Err(ScopeInvalid)
      else Ok(Some(Slot(o.namespace.value, o.key.value)))
    else if o.namespace.Some? || o.fingerprint.Some? then Err(OptionsInvalid)
    else if o.scope.Some? && !(0 < |o.scope.value| <= 512) then Err(ScopeInvalid)
    else Ok(None)
  }

  /** The registered job holding the slot of this start, if any. */
  function Existing(s: State, slot: Option<Slot>): (r: Option<nat>)
    requires Linked(s)
    ensures r.Some? ==> r.value in s.order && slot.Some? && s.jobs[r.value].slot == slot
    ensures r.None? && slot.Some? ==> forall n :: n in s.order ==> s.jobs[n].slot != slot
  {
    if slot.None? then None else FindSlot(s.jobs, s.order, slot.value)
  }

  predicate IsStale(j: Job, o: Options) {
    j.status == Done && o.staleVerdict == Some(true)
  }

  /** What the slot's earlier job answers, unless it is absent or stale. */
  function Replay(s: State, slot: Option<Slot>, o: Options, now: nat): Option<Envelope>
    requires Linked(s)
  {
    match Existing(s, slot)
    case None => None
    case Some(n) =>
      if s.jobs[n].fingerprint != o.fingerprint then Some(Refused(Conflict))
      else if IsStale(s.jobs[n], o) then None
      else Some(Describe(n, s.jobs[n], now))
  }

  /** Drops the stale job, so that a fresh one takes its slot. */
  function Evicted(s: State, slot: Option<Slot>): (r: State)
    requires Linked(s)
    ensures Linked(r) && r == s.(order := r.order)
    ensures forall n :: n in r.order <==> n in s.order && Some(n) != Existing(s, slot)
  {
    match Existing(s, slot)
    case None => s
    case Some(n) => s.(order := Without(s.order, n))
  }

  predicate ScopeIsBusy(s: State, scope: Option<string>)
    requires Linked(s)
  {
    scope.Some? && exists n :: n in s.order && s.jobs[n].status == Running && s.jobs[n].scope == scope
  }

  function FreshJob(slot: Option<Slot>, o: Options, now: nat): Job {
    Job(Running, now, None, 0, o.cancellable, slot, o.fingerprint, o.scope, o.singleFlight, false, [])
  }

  function Create(s: State, slot: Option<Slot>, o: Options, now: nat): Outcome {
    var n := s.serial + 1;
    var j := FreshJob(slot, o, now);
    Outcome(s.(jobs := s.jobs[n := j], order := s.order + [n], serial := n), Describe(n, j, now))
  }

  function Admit(s: State, slot: Option<Slot>, o: Options, now: nat): Outcome
    requires Linked(s)
  {
    if o.singleFlight && ScopeIsBusy(s, o.scope) then Outcome(s, Refused(Contended))
    else if |s.order| >= s.capacity then Outcome(s, Refused(CapacityExhausted))
    else Create(s, slot, o, now)
  }

  function Started(s: State, o: Options, now: nat): Outcome
    requires Linked(s)
  {
    match Validate(o)
    case Err(e) => Outcome(s, Refused(e))
    case Ok(slot) =>
      var swept := Reaped(s, now);
      match Replay(swept, slot, o, now)
      case Some(reply) => Outcome(swept, reply)
      case None => Admit(Evicted(swept, slot), slot, o, now)
  }

  // ---- polling, waiting, cancelling ------------------------------------------------------

  function Polled(s: State, id: string, now: nat): (r: Outcome)
    requires Linked(s)
    ensures r.state == Reaped(s, now)
  {
    var swept := Reaped(s, now);
    match Lookup(swept, id)
    case None => Outcome(swept, Refused(NotFound))
    case Some(n) => Outcome(swept, Describe(n, swept.jobs[n], now))
  }

  function Answered(s: State, reply: Envelope): State {
    s.(waits := s.waits[s.nextWait := Wait(false, None, 1, Some(reply))], nextWait := s.nextWait + 1)
  }

  function Parked(s: State, n: nat): State
    requires n in s.jobs
  {
    var j := s.jobs[n];
    s.(jobs := s.jobs[n := j.(waiters := j.waiters + [s.nextWait])],
       waits := s.waits[s.nextWait := Wait(true, Some(n), 0, None)], nextWait := s.nextWait + 1)
  }

  function Awaited(s: State, id: string, waitMs: int, now: nat): State
    requires Linked(s)
  {
    if waitMs <= 0 || waitMs > WAIT_MAX_MS then Answered(s, Refused(WaitInvalid))
    else
      var poll := Polled(s, id, now);
      var n := Lookup(poll.state, id);
      if n.Some? && poll.state.jobs[n.value].status == Running then Parked(poll.state, n.value)
      else Answered(poll.state, poll.reply)
  }

  /** The promise's own settle: disarm, then resolve; a second resolve would change nothing. */
  function SettledWait(w: Wait, reply: Envelope): Wait {
    Wait(false, w.job, w.settles + 1, if w.answer.Some? then w.answer else Some(reply))
  }

  function TimedOut(s: State, w: nat, now: nat): State
    requires Linked(s) && w in s.waits && s.waits[w].armed
  {
    var n := s.waits[w].job.value;
    var j := s.jobs[n];
    s.(jobs := s.jobs[n := j.(waiters := Without(j.waiters, w))],
       waits := s.waits[w := SettledWait(s.waits[w], Describe(n, j, now))])
  }

  function CancelRequested(s: State, id: string, now: nat): Outcome
    requires Linked(s)
  {
    var swept := Reaped(s, now);
    match Lookup(swept, id)
    case None => Outcome(swept, Refused(NotFound))
    case Some(n) =>
      var j := swept.jobs[n];
      if j.status != Running then Outcome(swept, AlreadyTerminal(n, j.status))
      else if !j.cancellable then Outcome(swept, Refused(NotCancellable))
      else Outcome(swept.(jobs := swept.jobs[n := j.(aborted := true)]), Cancelling(n))
  }

  // ---- completion --------------------------------------------------------------------------

  /** The callback of a resolved run: the status turns before the job is finished. */
  function Resolved(s: State, n: nat, result: int): State
    requires n in s.jobs
  {
    s.(jobs := s.jobs[n := s.jobs[n].(status := Done, result := result)])
  }

  /** The callback of a failed run. */
  function Rejected(s: State, n: nat): State
    requires n in s.jobs
  {
    s.(jobs := s.jobs[n := s.jobs[n].(status := if s.jobs[n].aborted then Cancelled else Failed)])
  }

  function Release(waits: map<nat, Wait>, outstanding: seq<nat>, reply: Envelope): map<nat, Wait>
    requires forall w :: w in outstanding ==> w in waits
    decreases |outstanding|
  {
    if outstanding == [] then waits
    else Release(waits[outstanding[0] := SettledWait(waits[outstanding[0]], reply)], outstanding[1..], reply)
  }

  /** The last callback of a job: it stamps the end and releases every waiter. */
  function Finished(s: State, n: nat, now: nat): State
    requires Linked(s) && n in s.jobs
  {
    var j := s.jobs[n].(finishedAt := Some(now), waiters := []);
    s.(jobs := s.jobs[n := j], waits := Release(s.waits, s.jobs[n].waiters, Describe(n, j, now)))
  }

  // ---- the registry object -------------------------------------------------------------------

  class AsyncJobRegistry {
    var jobs: map<nat, Job>
    var order: seq<nat>
    var serial: nat
    var waits: map<nat, Wait>
    var nextWait: nat
    const capacity: nat

    constructor (capacity: nat)
      ensures View() == State(map[], [], capacity, 0, map[], 0)
    {
      this.capacity := capacity;
      jobs, order, serial, waits, nextWait := map[], [], 0, map[], 0;
    }

    function View(): State
      reads this
    {
      State(jobs, order, capacity, serial, waits, nextWait)
    }

    method Reap(now: nat)
      requires Linked(View())
      modifies this`order
      ensures View() == Reaped(old(View()), now)
    {
      var entries := order;
      var kept: seq<nat> := [];
      var i := 0;
      while i < |entries|
        invariant 0 <= i <= |entries|
        invariant kept == Unexpired(jobs, entries[..i], now)
      {
        assert entries[..i + 1][..i] == entries[..i];
        if !Expired(jobs[entries[i]], now) {
          kept := kept + [entries[i]];
        }
        i := i + 1;
      }
      assert entries[..i] == entries;
      order := kept;
    }

    /** The end of a start: contention, capacity, then a fresh running job. */
    method Launch(slot: Option<Slot>, o: Options, now: nat) returns (reply: Envelope)
      requires Linked(View())
      modifies this
      ensures Outcome(View(), reply) == Admit(old(View()), slot, o, now)
    {
      if o.singleFlight && ScopeIsBusy(View(), o.scope) {
        return Refused(Contended);
      }
      if |order| >= capacity {
        return Refused(CapacityExhausted);
      }
      serial := serial + 1;
      var job := FreshJob(slot, o, now);
      jobs, order := jobs[serial := job], order + [serial];
      reply := Describe(serial, job, now);
    }

    method Start(o: Options, now: nat) returns (reply: Envelope)
      requires Linked(View())
      modifies this
      ensures Outcome(View(), reply) == Started(old(View()), o, now)
    {
      var validated := Validate(o);
      if validated.Err? {
        return Refused(validated.error);
      }
      var slot := validated.value;
      Reap(now);
      var existing := Existing(View(), slot);
      if existing.Some? {
        var j := jobs[existing.value];
        if j.fingerprint != o.fingerprint {
          return Refused(Conflict);
        }
        if !IsStale(j, o) {
          return Describe(existing.value, j, now);
        }
        order := Without(order, existing.value);
      }
      reply := Launch(slot, o, now);
    }

    method Poll(id: string, now: nat) returns (reply: Envelope)
      requires Linked(View())
      modifies this`order
      ensures Outcome(View(), reply) == Polled(old(View()), id, now)
    {
      Reap(now);
      var n := Lookup(View(), id);
      if n.None? {
        return Refused(NotFound);
      }
      reply := Describe(n.value, jobs[n.value], now);
    }

    method Await(id: string, waitMs: int, now: nat) returns (promise: nat)
      requires Linked(View())
      modifies this
      ensures promise == old(nextWait) && View() == Awaited(old(View()), id, waitMs, now)
    {
      promise := nextWait;
      nextWait := nextWait + 1;
      if waitMs <= 0 || waitMs > WAIT_MAX_MS {
        waits := waits[promise := Wait(false, None, 1, Some(Refused(WaitInvalid)))];
        return;
      }
      var immediate := Poll(id, now);
      var n := Lookup(View(), id);
      if n.None? || jobs[n.value].status != Running {
        waits := waits[promise := Wait(false, None, 1, Some(immediate))];
        return;
      }
      var job := jobs[n.value];
      jobs := jobs[n.value := job.(waiters := job.waiters + [promise])];
      waits := waits[promise := Wait(true, n, 0, None)];
    }

    method TimerFires(w: nat, now: nat)
      requires Linked(View()) && w in waits && waits[w].armed
      modifies this
      ensures View() == TimedOut(old(View()), w, now)
    {
      var n := waits[w].job.value;
      var job := jobs[n];
      jobs := jobs[n := job.(waiters := Without(job.waiters, w))];
      waits := waits[w := SettledWait(waits[w], Describe(n, job, now))];
    }

    method Cancel(id: string, now: nat) returns (reply: Envelope)
      requires Linked(View())
      modifies this
      ensures Outcome(View(), reply) == CancelRequested(old(View()), id, now)
      ensures reply.Cancelling? ==>
        && reply.job in old(jobs) && old(jobs)[reply.job].status == Running && old(jobs)[reply.job].cancellable
        && jobs == old(jobs)[reply.job := old(jobs)[reply.job].(aborted := true)]
      ensures !reply.Cancelling? ==> jobs == old(jobs)
    {
      Reap(now);
      var n := Lookup(View(), id);
      if n.None? {
        return Refused(NotFound);
      }
      var job := jobs[n.value];
      if job.status != Running {
        return AlreadyTerminal(n.value, job.status);
      }
      if !job.cancellable {
        return Refused(NotCancellable);
      }
      jobs := jobs[n.value := job.(aborted := true)];
      reply := Cancelling(n.value);
    }

    method Resolve(n: nat, result: int)
      requires n in jobs
      modifies this`jobs
      ensures View() == Resolved(old(View()), n, result)
    {
      jobs := jobs[n := jobs[n].(result := result)];
      jobs := jobs[n := jobs[n].(status := Done)];
    }

    method Reject(n: nat)
      requires n in jobs
      modifies this`jobs
      ensures View() == Rejected(old(View()), n)
    {
      jobs := jobs[n := jobs[n].(status := if jobs[n].aborted then Cancelled else Failed)];
    }

    method Finish(n: nat, now: nat)
      requires Linked(View()) && n in jobs
      modifies this
      ensures View() == Finished(old(View()), n, now)
    {
      var outstanding := jobs[n].waiters;
      jobs := jobs[n := jobs[n].(finishedAt := Some(now), waiters := [])];
      var reply := Describe(n, jobs[n], now);
      var i := 0;
      assert outstanding[0..] == outstanding;
      while i < |outstanding|
        invariant 0 <= i <= |outstanding|
        invariant forall w :: w in outstanding ==> w in waits
        invariant Release(waits, outstanding[i..], reply) == Release(old(waits), outstanding, reply)
        invariant jobs == old(jobs)[n := old(jobs[n]).(finishedAt := Some(now), waiters := [])]
        invariant order == old(order) && serial == old(serial) && nextWait == old(nextWait)
      {
        var w := outstanding[i];
        assert outstanding[i..][1..] == outstanding[i + 1..];
        waits := waits[w := SettledWait(waits[w], reply)];
        i := i + 1;
      }
    }
  }
}
