/**
 The CPU admission policy (tools/gc_dispatch/admission.py): strict first-in-first-out with
 partial grants, backfill behind a satisfied request, and a stop at the first blocked entry.
 */
module Admission {
  import opened Wrappers
  import opened Records
  import opened TextOrder

  function Min(a: int, b: int): int {
    if a <= b then a else b
  }

  function Max(a: int, b: int): int {
    if a >= b then a else b
  }

  /** A demand clamped to the host's total capacity. */
  function Effective(value: int, capacity: int): int {
    Max(1, Min(value, capacity))
  }

  function GrantOf(e: Entry): int {
    if e.state == Running && e.granted.Some? then e.granted.value else 0
  }

  function Used(entries: seq<Entry>): int {
    if entries == [] then 0 else GrantOf(entries[0]) + Used(entries[1..])
  }

  function Remaining(capacity: int, entries: seq<Entry>): nat {
    Max(0, capacity - Used(entries))
  }

  // ---- the queue order -------------------------------------------------

  /** The sort key: the sequence number, then the ticket. */
  predicate Before(a: Entry, b: Entry) {
    a.seqNo < b.seqNo || (a.seqNo == b.seqNo && LexLess(a.ticket, b.ticket))
  }

  function InsertInOrder(e: Entry, queue: seq<Entry>): seq<Entry> {
    if queue == [] || !Before(queue[0], e) then [e] + queue
    else [queue[0]] + InsertInOrder(e, queue[1..])
  }

  function QueuedInOrder(entries: seq<Entry>): seq<Entry> {
    if entries == [] then []
    else if entries[0].state == Queued then InsertInOrder(entries[0], QueuedInOrder(entries[1..]))
    else QueuedInOrder(entries[1..])
  }

  ghost predicate InOrder(queue: seq<Entry>) {
    forall i, j :: 0 <= i < j < |queue| ==> !Before(queue[j], queue[i])
  }

  // ---- the walk --------------------------------------------------------

  /** The walk over an ordered queue with `remaining` capacity, looking for `ticket`. */
  function Walk(queue: seq<Entry>, capacity: int, remaining: int, ticket: Ticket): Option<int> {
    if queue == [] || remaining < Effective(queue[0].minimum, capacity) then None
    else
      var grant := Min(Effective(queue[0].requested, capacity), remaining);
      if queue[0].ticket == ticket then Some(grant)
      else Walk(queue[1..], capacity, remaining - grant, ticket)
  }

  function Plan(capacity: int, entries: seq<Entry>, ticket: Ticket): Option<int> {
    var cap := Max(1, capacity);
    Walk(QueuedInOrder(entries), cap, Remaining(cap, entries), ticket)
  }

  /** The loop of plan_admission. */
  method PlanAdmission(capacity: int, entries: seq<Entry>, ticket: Ticket) returns (granted: Option<int>)
    ensures granted == Plan(capacity, entries, ticket)
  {
    var cap := Max(1, capacity);
    var remaining := Remaining(cap, entries);
    var queue := QueuedInOrder(entries);
    granted := None;
    var i := 0;
    while i < |queue|
      invariant 0 <= i <= |queue|
      invariant granted == None
      invariant Plan(capacity, entries, ticket) == Walk(queue[i..], cap, remaining, ticket)
    {
      var minimum := Effective(queue[i].minimum, cap);
      if remaining < minimum {
        break;
      }
      var grant := Min(Effective(queue[i].requested, cap), remaining);
      if queue[i].ticket == ticket {
        granted := Some(grant);
        break;
      }
      remaining := remaining - grant;
      i := i + 1;
    }
  }

  // ---- the queue is the queued entries, in order ------------------------

  lemma NotBeforeTransitive(a: Entry, b: Entry, c: Entry)
    requires !Before(b, a) && !Before(c, b)
    ensures !Before(c, a)
  {
    if a.seqNo == b.seqNo == c.seqNo {
      LexLessNotTransitive(a.ticket, b.ticket, c.ticket);
    }
  }

  lemma {:induction false} InsertKeepsOrder(e: Entry, queue: seq<Entry>)
    requires InOrder(queue)
    ensures InOrder(InsertInOrder(e, queue))
    ensures multiset(InsertInOrder(e, queue)) == multiset(queue) + multiset{e}
  {
    if queue == [] {
    } else if Before(queue[0], e) {
      InsertKeepsOrder(e, queue[1..]);
      var rest := InsertInOrder(e, queue[1..]);
      assert queue == [queue[0]] + queue[1..];
      LexLessTotal(queue[0].ticket, e.ticket);
      forall x | x in rest ensures !Before(x, queue[0]) {
        assert x in multiset(rest);
        assert x == e || x in queue[1..];
      }
    } else {
      forall x | x in queue ensures !Before(x, e) {
        var k :| 0 <= k < |queue| && queue[k] == x;
        if k > 0 {
          NotBeforeTransitive(e, queue[0], queue[k]);
        }
      }
    }
  }

  lemma {:induction false} QueueIsSorted(entries: seq<Entry>)
    ensures InOrder(QueuedInOrder(entries))
    ensures forall e :: e in QueuedInOrder(entries) <==> e in entries && e.state == Queued
  {
    if entries != [] {
      QueueIsSorted(entries[1..]);
      var rest := QueuedInOrder(entries[1..]);
      assert entries == [entries[0]] + entries[1..];
      if entries[0].state == Queued {
        InsertKeepsOrder(entries[0], rest);
        forall e ensures e in QueuedInOrder(entries) <==> e in rest || e == entries[0] {
          assert e in QueuedInOrder(entries) <==> e in multiset(QueuedInOrder(entries));
        }
      }
    }
  }

  // ---- admission, stated without the walk -------------------------------

  function RequestedAhead(queue: seq<Entry>, capacity: int): nat {
    if queue == [] then 0
    else Effective(queue[0].requested, capacity) + RequestedAhead(queue[1..], capacity)
  }

  ghost predicate ValidQueue(queue: seq<Entry>) {
    && (forall i :: 0 <= i < |queue| ==> queue[i].minimum <= queue[i].requested)
    && DistinctTickets(queue)
  }

  /**
   What a grant means. The entry at position k is admitted exactly when everybody ahead of it can
   be given their whole clamped request and its own clamped minimum still fits, and it then gets
   its request or all that is left. A partial grant leaves nothing for anybody behind it.
   */
  lemma {:induction false} WalkMeaning(queue: seq<Entry>, capacity: int, remaining: nat, k: nat)
    requires ValidQueue(queue) && k < |queue| && capacity >= 1
    ensures var ahead := RequestedAhead(queue[..k], capacity);
      Walk(queue, capacity, remaining, queue[k].ticket) ==
      if ahead + Effective(queue[k].minimum, capacity) <= remaining
      then Some(Min(Effective(queue[k].requested, capacity), remaining - ahead))
      else None
  {
    if k > 0 {
      var requested := Effective(queue[0].requested, capacity);
      assert queue[..k][1..] == queue[1..][..k - 1];
      var grant := Min(requested, remaining);
      if remaining >= Effective(queue[0].minimum, capacity) {
        WalkMeaning(queue[1..], capacity, remaining - grant, k - 1);
      }
    }
  }

  lemma {:induction false} WalkFindsOnlyQueued(queue: seq<Entry>, capacity: int, remaining: int, ticket: Ticket)
    requires Walk(queue, capacity, remaining, ticket).Some?
    ensures exists k :: 0 <= k < |queue| && queue[k].ticket == ticket
  {
    if queue[0].ticket != ticket {
      var grant := Min(Effective(queue[0].requested, capacity), remaining);
      WalkFindsOnlyQueued(queue[1..], capacity, remaining - grant, ticket);
      var k :| 0 <= k < |queue[1..]| && queue[1..][k].ticket == ticket;
      assert queue[k + 1].ticket == ticket;
    }
  }

  /** A grant lies between the clamped minimum and the clamped request, and fits what is left. */
  lemma {:induction false} GrantBounds(queue: seq<Entry>, capacity: int, remaining: nat, ticket: Ticket)
    requires Walk(queue, capacity, remaining, ticket).Some?
    requires ValidQueue(queue) && capacity >= 1
    ensures exists e :: (e in queue && e.ticket == ticket
      && Effective(e.minimum, capacity) <= Walk(queue, capacity, remaining, ticket).value
         <= Effective(e.requested, capacity))
    ensures 1 <= Walk(queue, capacity, remaining, ticket).value <= remaining
  {
    WalkFindsOnlyQueued(queue, capacity, remaining, ticket);
    var k :| 0 <= k < |queue| && queue[k].ticket == ticket;
    WalkMeaning(queue, capacity, remaining, k);
    assert queue[k] in queue;
  }

  // ---- admitting one ticket ----------------------------------------------

  /** The edit try_admit makes to its own entry. */
  function Admit(entries: seq<Entry>, ticket: Ticket, grant: int, now: real): seq<Entry> {
    if entries == [] then []
    else if entries[0].ticket == ticket then
      [entries[0].(state := Running, granted := Some(grant), startedAt := Some(now))] + entries[1..]
    else [entries[0]] + Admit(entries[1..], ticket, grant, now)
  }

  function Without(queue: seq<Entry>, ticket: Ticket): seq<Entry> {
    if queue == [] then []
    else if queue[0].ticket == ticket then Without(queue[1..], ticket)
    else [queue[0]] + Without(queue[1..], ticket)
  }

  lemma {:induction false} WithoutContents(queue: seq<Entry>, ticket: Ticket)
    ensures forall e :: e in Without(queue, ticket) <==> e in queue && e.ticket != ticket
  {
    if queue != [] {
      WithoutContents(queue[1..], ticket);
      assert queue == [queue[0]] + queue[1..];
    }
  }

  lemma {:induction false} WithoutAbsent(queue: seq<Entry>, ticket: Ticket)
    requires forall e :: e in queue ==> e.ticket != ticket
    ensures Without(queue, ticket) == queue
  {
    if queue != [] {
      WithoutAbsent(queue[1..], ticket);
    }
  }

  lemma {:induction false} InsertThenRemove(e: Entry, queue: seq<Entry>)
    ensures Without(InsertInOrder(e, queue), e.ticket) == Without(queue, e.ticket)
  {
    if queue == [] || !Before(queue[0], e) {
      assert ([e] + queue)[1..] == queue;
    } else {
      InsertThenRemove(e, queue[1..]);
    }
  }

  lemma {:induction false} InsertCommutesWithout(e: Entry, queue: seq<Entry>, ticket: Ticket)
    requires e.ticket != ticket && InOrder(queue)
    ensures Without(InsertInOrder(e, queue), ticket) == InsertInOrder(e, Without(queue, ticket))
  {
    if queue == [] {
    } else if Before(queue[0], e) {
      InsertCommutesWithout(e, queue[1..], ticket);
    } else {
      assert ([e] + queue)[1..] == queue;
      var rest := Without(queue, ticket);
      WithoutContents(queue, ticket);
      if rest != [] {
        assert rest[0] in rest;
        var k :| 0 <= k < |queue| && queue[k] == rest[0];
        if k > 0 {
          NotBeforeTransitive(e, queue[0], queue[k]);
        }
      }
    }
  }

  ghost predicate ValidEntries(entries: seq<Entry>) {
    && DistinctTickets(entries)
    && AllValid(entries)
  }

  lemma {:induction false} AdmitLeavesTheQueue(entries: seq<Entry>, ticket: Ticket, grant: int, now: real)
    requires DistinctTickets(entries)
    ensures QueuedInOrder(Admit(entries, ticket, grant, now)) == Without(QueuedInOrder(entries), ticket)
  {
    if entries != [] {
      var e, rest := entries[0], entries[1..];
      QueueIsSorted(rest);
      AdmitLeavesTheQueue(rest, ticket, grant, now);
      if e.ticket == ticket {
        var admitted := Admit(entries, ticket, grant, now);
        assert admitted[1..] == rest;
        WithoutAbsent(QueuedInOrder(rest), ticket);
        InsertThenRemove(e, QueuedInOrder(rest));
      } else {
        assert Admit(entries, ticket, grant, now)[1..] == Admit(rest, ticket, grant, now);
        InsertCommutesWithout(e, QueuedInOrder(rest), ticket);
      }
    }
  }

  lemma {:induction false} AdmitUses(entries: seq<Entry>, ticket: Ticket, grant: int, now: real, k: nat)
    requires DistinctTickets(entries) && k < |entries|
    requires entries[k].ticket == ticket && entries[k].state == Queued
    ensures Used(Admit(entries, ticket, grant, now)) == Used(entries) + grant
    ensures |Admit(entries, ticket, grant, now)| == |entries|
    ensures Admit(entries, ticket, grant, now) ==
      entries[k := entries[k].(state := Running, granted := Some(grant), startedAt := Some(now))]
  {
    var admitted := Admit(entries, ticket, grant, now);
    if k == 0 {
      assert admitted[1..] == entries[1..];
    } else {
      AdmitUses(entries[1..], ticket, grant, now, k - 1);
      assert admitted[1..] == Admit(entries[1..], ticket, grant, now);
    }
  }

  /** The walk behind an admitted head is the walk without it. */
  lemma HeadIsIgnored(queue: seq<Entry>, capacity: int, remaining: nat, other: Ticket)
    requires ValidQueue(queue) && queue != [] && other != queue[0].ticket
    requires remaining >= Effective(queue[0].minimum, capacity)
    ensures Walk(Without(queue, queue[0].ticket), capacity,
                 remaining - Min(Effective(queue[0].requested, capacity), remaining), other)
         == Walk(queue, capacity, remaining, other)
  {
    WithoutAbsent(queue[1..], queue[0].ticket);
  }

  /** Removing an admitted ticket and its grant from the walk changes no other ticket's answer. */
  lemma WalkIgnoresAdmitted(queue: seq<Entry>, capacity: int, remaining: nat, ticket: Ticket, other: Ticket)
    requires ValidQueue(queue) && capacity >= 1 && other != ticket
    requires Walk(queue, capacity, remaining, ticket).Some?
    ensures var grant := Walk(queue, capacity, remaining, ticket).value;
      Walk(Without(queue, ticket), capacity, remaining - grant, other) == Walk(queue, capacity, remaining, other)
  {
    WalkIgnoresGrant(queue, capacity, remaining, ticket, Walk(queue, capacity, remaining, ticket).value, other);
  }

  lemma {:induction false} WalkIgnoresGrant(queue: seq<Entry>, capacity: int, remaining: nat, ticket: Ticket,
                                            grant: int, other: Ticket)
    requires ValidQueue(queue) && capacity >= 1 && other != ticket
    requires Walk(queue, capacity, remaining, ticket) == Some(grant)
    ensures Walk(Without(queue, ticket), capacity, remaining - grant, other) == Walk(queue, capacity, remaining, other)
  {
    if queue[0].ticket == ticket {
      HeadIsIgnored(queue, capacity, remaining, other);
    } else {
      var head, rest := queue[0], queue[1..];
      var left := remaining - Min(Effective(head.requested, capacity), remaining);
      assert queue == [head] + rest;
      TailIsValid(queue);
      WalkOne(head, rest, capacity, remaining, ticket);
      GrantFits(rest, capacity, left, ticket);
      WalkIgnoresGrant(rest, capacity, left, ticket, grant, other);
      IgnoredBehindHead(head, rest, capacity, remaining, ticket, grant, other);
    }
  }

  lemma TailIsValid(queue: seq<Entry>)
    requires ValidQueue(queue) && queue != []
    ensures ValidQueue(queue[1..])
  {
  }

  lemma GrantFits(queue: seq<Entry>, capacity: int, remaining: nat, ticket: Ticket)
    requires Walk(queue, capacity, remaining, ticket).Some?
    requires ValidQueue(queue) && capacity >= 1
    ensures 1 <= Walk(queue, capacity, remaining, ticket).value <= remaining
  {
    GrantBounds(queue, capacity, remaining, ticket);
  }

  /** A head that takes its share first takes the same share of what an admitted ticket behind it left. */
  lemma IgnoredBehindHead(head: Entry, rest: seq<Entry>, capacity: int, remaining: nat, ticket: Ticket, grant: int,
                          other: Ticket)
    requires head.ticket != ticket && remaining >= Effective(head.minimum, capacity) && head.minimum <= head.requested
    requires var left := remaining - Min(Effective(head.requested, capacity), remaining);
      && 1 <= grant <= left
      && Walk(Without(rest, ticket), capacity, left - grant, other) == Walk(rest, capacity, left, other)
    ensures Walk(Without([head] + rest, ticket), capacity, remaining - grant, other)
      == Walk([head] + rest, capacity, remaining, other)
  {
    assert Min(Effective(head.requested, capacity), remaining) == Effective(head.requested, capacity);
    assert ([head] + rest)[1..] == rest;
    assert Without([head] + rest, ticket) == [head] + Without(rest, ticket);
    WalkOne(head, rest, capacity, remaining, other);
    WalkOne(head, Without(rest, ticket), capacity, remaining - grant, other);
  }

  lemma WalkOne(head: Entry, rest: seq<Entry>, capacity: int, remaining: int, ticket: Ticket)
    ensures Walk([head] + rest, capacity, remaining, ticket)
      == if remaining < Effective(head.minimum, capacity) then None
         else if head.ticket == ticket then Some(Min(Effective(head.requested, capacity), remaining))
         else Walk(rest, capacity, remaining - Min(Effective(head.requested, capacity), remaining), ticket)
  {
    assert ([head] + rest)[1..] == rest;
  }

  lemma QueueTicketsDistinct(entries: seq<Entry>)
    requires DistinctTickets(entries)
    ensures DistinctTickets(QueuedInOrder(entries))
  {
    if entries != [] {
      QueueTicketsDistinct(entries[1..]);
      QueueIsSorted(entries[1..]);
      if entries[0].state == Queued {
        InsertDistinct(entries[0], QueuedInOrder(entries[1..]));
      }
    }
  }

  lemma {:induction false} InsertDistinct(e: Entry, queue: seq<Entry>)
    requires DistinctTickets(queue) && forall x :: x in queue ==> x.ticket != e.ticket
    ensures DistinctTickets(InsertInOrder(e, queue))
    ensures forall x :: x in InsertInOrder(e, queue) <==> x in queue || x == e
  {
    if queue != [] && Before(queue[0], e) {
      InsertDistinct(e, queue[1..]);
      assert queue == [queue[0]] + queue[1..];
      var rest := InsertInOrder(e, queue[1..]);
      forall i | 0 <= i < |rest| ensures rest[i].ticket != queue[0].ticket {
        assert rest[i] in rest;
      }
    }
  }

  lemma QueueIsValid(entries: seq<Entry>)
    requires ValidEntries(entries)
    ensures ValidQueue(QueuedInOrder(entries))
  {
    QueueTicketsDistinct(entries);
    QueueIsSorted(entries);
    var queue := QueuedInOrder(entries);
    forall i | 0 <= i < |queue| ensures queue[i].minimum <= queue[i].requested {
      assert queue[i] in queue;
      assert ValidEntry(queue[i]);
    }
  }

  /** A planned ticket is a queued entry, and its grant fits it and the remaining capacity. */
  lemma PlanIsQueued(capacity: int, entries: seq<Entry>, ticket: Ticket) returns (k: nat)
    requires ValidEntries(entries) && Plan(capacity, entries, ticket).Some?
    ensures k < |entries| && entries[k].ticket == ticket && entries[k].state == Queued
    ensures var cap, grant := Max(1, capacity), Plan(capacity, entries, ticket).value;
      && Effective(entries[k].minimum, cap) <= grant <= Effective(entries[k].requested, cap)
      && 1 <= grant <= Remaining(cap, entries)
  {
    var cap := Max(1, capacity);
    var queue := QueuedInOrder(entries);
    QueueIsValid(entries);
    QueueIsSorted(entries);
    GrantBounds(queue, cap, Remaining(cap, entries), ticket);
    var e :| e in queue && e.ticket == ticket
      && Effective(e.minimum, cap) <= Plan(capacity, entries, ticket).value <= Effective(e.requested, cap);
    k :| 0 <= k < |entries| && entries[k] == e;
  }

  /** Admitting any ticket the policy would admit leaves every other ticket's answer as it was. */
  lemma AdmissionIsIndependent(capacity: int, entries: seq<Entry>, ticket: Ticket, now: real, other: Ticket)
    requires ValidEntries(entries) && other != ticket
    requires Plan(capacity, entries, ticket).Some?
    ensures var grant := Plan(capacity, entries, ticket).value;
      Plan(capacity, Admit(entries, ticket, grant, now), other) == Plan(capacity, entries, other)
  {
    var cap := Max(1, capacity);
    var grant := Plan(capacity, entries, ticket).value;
    QueueIsValid(entries);
    var k := PlanIsQueued(capacity, entries, ticket);
    AdmitUses(entries, ticket, grant, now, k);
    AdmitLeavesTheQueue(entries, ticket, grant, now);
    WalkIgnoresAdmitted(QueuedInOrder(entries), cap, Remaining(cap, entries), ticket, other);
  }

  // ---- polling in any order ----------------------------------------------

  datatype Poll = Poll(ticket: Ticket, now: real)

  function PollOnce(capacity: int, entries: seq<Entry>, poll: Poll): seq<Entry> {
    match Plan(capacity, entries, poll.ticket)
    case Some(grant) => Admit(entries, poll.ticket, grant, poll.now)
    case None => entries
  }

  function PollAll(capacity: int, entries: seq<Entry>, polls: seq<Poll>): seq<Entry>
    decreases |polls|
  {
    if polls == [] then entries
    else PollAll(capacity, PollOnce(capacity, entries, polls[0]), polls[1..])
  }

  lemma PollKeepsValid(capacity: int, entries: seq<Entry>, poll: Poll)
    requires ValidEntries(entries)
    ensures ValidEntries(PollOnce(capacity, entries, poll))
    ensures |PollOnce(capacity, entries, poll)| == |entries|
    ensures forall i :: 0 <= i < |entries| ==> PollOnce(capacity, entries, poll)[i].ticket == entries[i].ticket
  {
    if Plan(capacity, entries, poll.ticket).Some? {
      var k := PlanIsQueued(capacity, entries, poll.ticket);
      AdmitUses(entries, poll.ticket, Plan(capacity, entries, poll.ticket).value, poll.now, k);
      var after := PollOnce(capacity, entries, poll);
      forall e | e in after ensures ValidEntry(e) {
        assert ValidEntry(entries[k]);
        var i :| 0 <= i < |after| && after[i] == e;
        if i != k { assert entries[i] in entries; }
      }
    }
  }

  /**
   Every polling order gives the same grants: after any sequence of polls, a queued ticket is
   running if and only if it was polled and the one walk over the queue as it stood at the start
   admits it, and then with exactly that walk's grant. Every other field and entry is untouched.
   */
  lemma {:induction false} PollingOrderDoesNotMatter(capacity: int, entries: seq<Entry>, polls: seq<Poll>, k: nat)
    requires ValidEntries(entries) && k < |entries| && entries[k].state == Queued
    ensures |PollAll(capacity, entries, polls)| == |entries|
    ensures var plan := Plan(capacity, entries, entries[k].ticket);
      var after := PollAll(capacity, entries, polls)[k];
      if plan.Some? && exists i :: 0 <= i < |polls| && polls[i].ticket == entries[k].ticket
      then after.state == Running && after.granted == plan && after.ticket == entries[k].ticket
      else after == entries[k]
    decreases |polls|
  {
    if polls != [] {
      var poll, rest := polls[0], polls[1..];
      var next := PollOnce(capacity, entries, poll);
      PollKeepsValid(capacity, entries, poll);
      var plan := Plan(capacity, entries, poll.ticket);
      var mine := entries[k].ticket;
      if poll.ticket == mine {
        if plan.Some? {
          var j := PlanIsQueued(capacity, entries, mine);
          AdmitUses(entries, mine, plan.value, poll.now, j);
          RunningEntryIsSettled(capacity, next, rest, k);
        } else {
          PollingOrderDoesNotMatter(capacity, next, rest, k);
        }
      } else {
        if plan.Some? {
          var j := PlanIsQueued(capacity, entries, poll.ticket);
          AdmitUses(entries, poll.ticket, plan.value, poll.now, j);
          AdmissionIsIndependent(capacity, entries, poll.ticket, poll.now, mine);
        }
        PollingOrderDoesNotMatter(capacity, next, rest, k);
        assert forall i :: 0 < i < |polls| ==> polls[i] == rest[i - 1];
      }
    }
  }

  lemma {:induction false} RunningEntryIsSettled(capacity: int, entries: seq<Entry>, polls: seq<Poll>, k: nat)
    requires ValidEntries(entries) && k < |entries| && entries[k].state == Running
    ensures |PollAll(capacity, entries, polls)| == |entries|
    ensures PollAll(capacity, entries, polls)[k] == entries[k]
    decreases |polls|
  {
    if polls != [] {
      var poll := polls[0];
      PollKeepsValid(capacity, entries, poll);
      if Plan(capacity, entries, poll.ticket).Some? {
        var j := PlanIsQueued(capacity, entries, poll.ticket);
        AdmitUses(entries, poll.ticket, Plan(capacity, entries, poll.ticket).value, poll.now, j);
      }
      RunningEntryIsSettled(capacity, PollOnce(capacity, entries, poll), polls[1..], k);
    }
  }

  // ---- no starvation ------------------------------------------------------

  /** While the head of the queue does not fit, nobody is admitted. */
  lemma BlockedHeadBlocksAll(capacity: int, entries: seq<Entry>, ticket: Ticket)
    requires QueuedInOrder(entries) != []
    requires Plan(capacity, entries, QueuedInOrder(entries)[0].ticket).None?
    ensures Plan(capacity, entries, ticket).None?
  {
  }

  /** With nothing running, the head of the queue gets at least its clamped minimum. */
  lemma IdleHostAdmitsHead(capacity: int, entries: seq<Entry>)
    requires ValidEntries(entries) && QueuedInOrder(entries) != []
    requires forall e :: e in entries ==> e.state == Queued
    ensures var head := QueuedInOrder(entries)[0];
      Plan(capacity, entries, head.ticket) == Some(Effective(head.requested, Max(1, capacity)))
  {
    NothingRunning(entries);
    QueueIsValid(entries);
    WalkMeaning(QueuedInOrder(entries), Max(1, capacity), Remaining(Max(1, capacity), entries), 0);
  }

  lemma {:induction false} NothingRunning(entries: seq<Entry>)
    requires forall e :: e in entries ==> e.state == Queued
    ensures Used(entries) == 0
  {
    if entries != [] {
      NothingRunning(entries[1..]);
    }
  }

  /** An entry with a later sequence number joins at the back and changes no earlier answer. */
  lemma LaterEntryChangesNothing(capacity: int, entries: seq<Entry>, late: Entry, ticket: Ticket)
    requires late.state == Queued && ticket != late.ticket
    requires forall e :: e in entries ==> e.seqNo < late.seqNo
    ensures Plan(capacity, entries + [late], ticket) == Plan(capacity, entries, ticket)
  {
    LateEntryIsLast(entries, late);
    var cap := Max(1, capacity);
    UsedConcat(entries, [late]);
    WalkAppend(QueuedInOrder(entries), late, cap, Remaining(cap, entries), ticket);
  }

  // ---- a blocked head over a whole run ---------------------------------------------

  /** Somebody polls, or a new entry joins with the next sequence number. */
  datatype Event = Polled(ticket: Ticket, now: real) | Joined(entry: Entry)

  function Happen(capacity: int, entries: seq<Entry>, event: Event): seq<Entry> {
    match event
    case Polled(ticket, now) => PollOnce(capacity, entries, Poll(ticket, now))
    case Joined(entry) => entries + [entry]
  }

  function HappenAll(capacity: int, entries: seq<Entry>, events: seq<Event>): seq<Entry>
    decreases |events|
  {
    if events == [] then entries else HappenAll(capacity, Happen(capacity, entries, events[0]), events[1..])
  }

  /** Every entry that joins is queued, and later than all before it. */
  ghost predicate JoinLater(capacity: int, entries: seq<Entry>, events: seq<Event>)
    decreases |events|
  {
    events != [] ==>
      && (events[0].Joined? ==>
            events[0].entry.state == Queued && forall e :: e in entries ==> e.seqNo < events[0].entry.seqNo)
      && JoinLater(capacity, Happen(capacity, entries, events[0]), events[1..])
  }

  ghost predicate HeadIsBlocked(capacity: int, entries: seq<Entry>) {
    QueuedInOrder(entries) != [] && Plan(capacity, entries, QueuedInOrder(entries)[0].ticket).None?
  }

  lemma JoiningKeepsHeadBlocked(capacity: int, entries: seq<Entry>, late: Entry)
    requires HeadIsBlocked(capacity, entries) && late.state == Queued
    requires forall e :: e in entries ==> e.seqNo < late.seqNo
    ensures HeadIsBlocked(capacity, entries + [late])
    ensures QueuedInOrder(entries + [late])[0] == QueuedInOrder(entries)[0]
    ensures Used(entries + [late]) == Used(entries)
  {
    LateEntryIsLast(entries, late);
    UsedConcat(entries, [late]);
    assert [late][1..] == [];
  }

  /**
   No starvation: while the head of the queue is blocked, no sequence of polls and arrivals admits
   anybody, raises the used capacity or displaces the head; the ledger only grows at its end.
   */
  lemma {:induction false} BlockedHeadKeepsItsTurn(capacity: int, entries: seq<Entry>, events: seq<Event>)
    requires HeadIsBlocked(capacity, entries) && JoinLater(capacity, entries, events)
    ensures var after := HappenAll(capacity, entries, events);
      && entries <= after && Used(after) == Used(entries)
      && HeadIsBlocked(capacity, after) && QueuedInOrder(after)[0] == QueuedInOrder(entries)[0]
    decreases |events|
  {
    if events != [] {
      match events[0] {
        case Polled(ticket, _) => BlockedHeadBlocksAll(capacity, entries, ticket);
        case Joined(late) => JoiningKeepsHeadBlocked(capacity, entries, late);
      }
      BlockedHeadKeepsItsTurn(capacity, Happen(capacity, entries, events[0]), events[1..]);
    }
  }

  lemma {:induction false} UsedConcat(a: seq<Entry>, b: seq<Entry>)
    ensures Used(a + b) == Used(a) + Used(b)
  {
    if a == [] {
      assert a + b == b;
    } else {
      UsedConcat(a[1..], b);
      assert (a + b)[1..] == a[1..] + b;
    }
  }

  lemma {:induction false} LateEntryIsLast(entries: seq<Entry>, late: Entry)
    requires late.state == Queued && forall e :: e in entries ==> e.seqNo < late.seqNo
    ensures QueuedInOrder(entries + [late]) == QueuedInOrder(entries) + [late]
  {
    if entries == [] {
      assert entries + [late] == [late];
      assert QueuedInOrder([late][1..]) == [];
    } else {
      var e := entries[0];
      LateEntryIsLast(entries[1..], late);
      assert (entries + [late])[1..] == entries[1..] + [late];
      if e.state == Queued {
        InsertBeforeLast(e, QueuedInOrder(entries[1..]), late);
      }
    }
  }

  lemma {:induction false} InsertBeforeLast(e: Entry, queue: seq<Entry>, late: Entry)
    requires e.seqNo < late.seqNo
    ensures InsertInOrder(e, queue + [late]) == InsertInOrder(e, queue) + [late]
  {
    if queue == [] {
      assert queue + [late] == [late];
    } else if Before(queue[0], e) {
      InsertBeforeLast(e, queue[1..], late);
      assert (queue + [late])[1..] == queue[1..] + [late];
    } else {
      assert [e] + (queue + [late]) == [e] + queue + [late];
    }
  }

  lemma {:induction false} WalkAppend(queue: seq<Entry>, late: Entry, capacity: int, remaining: int, ticket: Ticket)
    requires ticket != late.ticket
    ensures Walk(queue + [late], capacity, remaining, ticket) == Walk(queue, capacity, remaining, ticket)
  {
    if queue == [] {
      assert (queue + [late])[1..] == [];
    } else {
      assert (queue + [late])[1..] == queue[1..] + [late];
      var grant := Min(Effective(queue[0].requested, capacity), remaining);
      WalkAppend(queue[1..], late, capacity, remaining - grant, ticket);
    }
  }

  /** The clamp is the value itself, or the nearest one the host can give. */
  lemma EffectiveIsNearest(value: int, capacity: int, other: int)
    requires 1 <= other <= capacity
    ensures 1 <= Effective(value, capacity) <= capacity
    ensures value <= other ==> value <= Effective(value, capacity) <= other || Effective(value, capacity) == 1
    ensures other <= value ==> other <= Effective(value, capacity) <= value
  {
  }
}
