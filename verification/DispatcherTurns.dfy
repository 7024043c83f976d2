/**
 Whose turn it is in the shared ledger (tools/gc_dispatch/ledger.py): the queue head, the grants and the
 used capacity over whole runs, with the sweep every enqueue and every poll does first.
 */
module DispatcherTurns {
  import opened Wrappers
  import opened Records
  import opened Admission
  import opened Ledger
  import opened DispatcherRuns

  // ---- the sweep of a step ---------------------------------------------------------------

  /** The entries the next sweep would keep. */
  ghost function Live(h: Host, c: Config): seq<Entry> {
    SweptHost(h, c, None).dir.doc.entries
  }

  lemma {:induction false} SelectAgrees(leases: set<Ticket>, probe: Probe, protect: Option<Ticket>, entries: seq<Entry>,
                                        keep: bool)
    requires forall e :: e in entries ==> Keeps(leases, probe, protect, e) == Keeps(leases, probe, None, e)
    ensures Select(leases, probe, protect, entries, keep) == Select(leases, probe, None, entries, keep)
  {
    if entries != [] {
      SelectAgrees(leases, probe, protect, entries[1..], keep);
    }
  }

  /** A live owner's entry is kept by any sweep. */
  lemma LiveOwnerIsKept(h: Host, c: Config, e: Entry)
    requires Inv(h, c) && e in h.dir.doc.entries && LiveOwner(h, e.ticket)
    ensures Keeps(h.dir.leases, ProbeOf(h, c), None, e)
  {
    assert EntryInv(h, e);
    assert h.owner[e.ticket] in h.holders[e.ticket];
  }

  /** Protecting a live owner's ticket changes nothing: its entry is not reclaimable. */
  lemma ProtectionIsIdle(h: Host, c: Config, t: Ticket)
    requires Inv(h, c) && LiveOwner(h, t)
    ensures SweptHost(h, c, Some(t)) == SweptHost(h, c, None)
  {
    var leases, probe, entries := h.dir.leases, ProbeOf(h, c), h.dir.doc.entries;
    forall e | e in entries ensures Keeps(leases, probe, Some(t), e) == Keeps(leases, probe, None, e) {
      if e.ticket == t {
        LiveOwnerIsKept(h, c, e);
      }
    }
    SelectAgrees(leases, probe, Some(t), entries, true);
    SelectAgrees(leases, probe, Some(t), entries, false);
  }

  lemma LiveIsSound(h: Host, c: Config)
    requires Inv(h, c)
    ensures DocInv(SweptHost(h, c, None).dir.doc, c)
    ensures forall e :: e in Live(h, c) <==> e in h.dir.doc.entries && Keeps(h.dir.leases, ProbeOf(h, c), None, e)
    ensures Used(Live(h, c)) <= Used(h.dir.doc.entries)
  {
    SweepDoc(h, c, None);
    SelectContents(h.dir.leases, ProbeOf(h, c), None, h.dir.doc.entries, true);
    assert forall e :: e in h.dir.doc.entries ==> ValidEntry(e);
    KeptUses(h.dir.leases, ProbeOf(h, c), None, h.dir.doc.entries);
  }

  // ---- what a poll and a registration write ---------------------------------------------------

  lemma PollWrites(h: Host, c: Config, t: Ticket)
    requires Inv(h, c) && LiveOwner(h, t)
    ensures var next := Apply(h, Action.Poll(t), c);
      match Plan(c.capacity, Live(h, c), t)
      case None => next == SweptHost(h, c, None)
      case Some(_) => next == AdmittedHost(SweptHost(h, c, None), c, t)
  {
    ProtectionIsIdle(h, c, t);
    PollFindsTicket(h, c, t);
    if Plan(c.capacity, Live(h, c), t).Some? {
      PollIsAdmit(h, c, t);
    }
  }

  // ---- grants are for good ----------------------------------------------------------------------

  /** No step of any process takes a grant back or changes it. */
  lemma GrantsNeverChange(h: Host, a: Action, c: Config, t: Ticket)
    requires Inv(h, c) && t in h.grants
    ensures t in Step(h, a, c).grants && Step(h, a, c).grants[t] == h.grants[t]
  {
    if Enabled(h, a) && a.Poll? {
      PollWrites(h, c, a.ticket);
      if Plan(c.capacity, Live(h, c), a.ticket).Some? {
        LiveIsSound(h, c);
        var k := PlanIsQueued(c.capacity, Live(h, c), a.ticket);
        assert Live(h, c)[k] in Live(h, c);
        assert EntryInv(h, Live(h, c)[k]);
      }
    }
  }

  lemma {:induction false} GrantsAreForGood(h: Host, actions: seq<Action>, c: Config, t: Ticket)
    requires Inv(h, c) && t in h.grants
    ensures t in Run(h, actions, c).grants && Run(h, actions, c).grants[t] == h.grants[t]
    decreases |actions|
  {
    if actions != [] {
      GrantsNeverChange(h, actions[0], c, t);
      StepKeepsInv(h, actions[0], c);
      GrantsAreForGood(Step(h, actions[0], c), actions[1..], c, t);
    }
  }

  // ---- polling in any order -------------------------------------------------------------------------------

  /** A sweep would keep every entry. */
  ghost predicate Clean(h: Host, c: Config) {
    forall e :: e in h.dir.doc.entries ==> Keeps(h.dir.leases, ProbeOf(h, c), None, e)
  }

  lemma CleanIsSwept(h: Host, c: Config)
    requires Clean(h, c)
    ensures Live(h, c) == h.dir.doc.entries
  {
    var leases, probe, entries := h.dir.leases, ProbeOf(h, c), h.dir.doc.entries;
    SelectContents(leases, probe, None, entries, false);
    if Select(leases, probe, None, entries, false) != [] {
      var e := Select(leases, probe, None, entries, false)[0];
      assert e in Select(leases, probe, None, entries, false);
    }
    NothingDropped(leases, probe, None, entries);
  }

  lemma SweptIsClean(h: Host, c: Config)
    requires Inv(h, c)
    ensures Clean(SweptHost(h, c, None), c)
  {
    var leases, probe, entries := h.dir.leases, ProbeOf(h, c), h.dir.doc.entries;
    SelectContents(leases, probe, None, entries, true);
    SelectDisjoint(leases, probe, None, entries);
    var next := SweptHost(h, c, None);
    forall e | e in next.dir.doc.entries ensures Keeps(next.dir.leases, ProbeOf(next, c), None, e) {
      assert e.ticket in Tickets(next.dir.doc.entries);
    }
  }

  lemma AdmittedIsClean(h: Host, c: Config, t: Ticket)
    requires Inv(h, c) && Clean(h, c) && LiveOwner(h, t) && Plan(c.capacity, h.dir.doc.entries, t).Some?
    ensures Clean(AdmittedHost(h, c, t), c)
  {
    var next := AdmittedHost(h, c, t);
    AdmitKeepsInv(h, c, t);
    var k := AdmitKeepsDoc(h.dir.doc, t, h.now, c);
    forall e | e in next.dir.doc.entries ensures Keeps(next.dir.leases, ProbeOf(next, c), None, e) {
      if e.ticket == t {
        LiveOwnerIsKept(next, c, e);
      } else {
        var i :| 0 <= i < |next.dir.doc.entries| && next.dir.doc.entries[i] == e;
        assert h.dir.doc.entries[i] in h.dir.doc.entries;
      }
    }
  }

  /** One poll changes the swept ledger as the policy alone would. */
  lemma PollIsOnePoll(h: Host, c: Config, t: Ticket)
    requires Inv(h, c) && LiveOwner(h, t)
    ensures Live(Apply(h, Action.Poll(t), c), c) == PollOnce(c.capacity, Live(h, c), Admission.Poll(t, h.now))
  {
    var swept := SweptHost(h, c, None);
    PollWrites(h, c, t);
    SweepKeepsInv(h, c, None);
    SweptIsClean(h, c);
    if Plan(c.capacity, Live(h, c), t).Some? {
      AdmittedIsClean(swept, c, t);
      CleanIsSwept(AdmittedHost(swept, c, t), c);
    } else {
      CleanIsSwept(swept, c);
    }
  }

  function Polls(tickets: seq<Ticket>): (actions: seq<Action>)
    ensures |actions| == |tickets|
  {
    if tickets == [] then [] else [Action.Poll(tickets[0])] + Polls(tickets[1..])
  }

  lemma PollKeepsOwners(h: Host, c: Config, t: Ticket, other: Ticket)
    requires Inv(h, c) && LiveOwner(h, t)
    ensures LiveOwner(Apply(h, Action.Poll(t), c), other) == LiveOwner(h, other)
  {
  }

  /** What one poll tells its own process, and that it tells nobody else. */
  lemma PollGrants(h: Host, c: Config, t: Ticket)
    requires Inv(h, c) && LiveOwner(h, t)
    ensures Apply(h, Action.Poll(t), c).grants == match Plan(c.capacity, Live(h, c), t)
      case None => h.grants
      case Some(grant) => h.grants[t := grant]
    ensures t in h.grants ==> Plan(c.capacity, Live(h, c), t).None?
  {
    PollWrites(h, c, t);
    if Plan(c.capacity, Live(h, c), t).Some? {
      LiveIsSound(h, c);
      var k := PlanIsQueued(c.capacity, Live(h, c), t);
      assert Live(h, c)[k] in Live(h, c);
      assert EntryInv(h, Live(h, c)[k]);
    }
  }

  /** A poll that admits its own ticket leaves everybody else's plan as it was. */
  lemma PollKeepsOtherPlans(h: Host, c: Config, t: Ticket, other: Ticket)
    requires Inv(h, c) && LiveOwner(h, t) && (other != t || Plan(c.capacity, Live(h, c), t).None?)
    ensures Plan(c.capacity, Live(Apply(h, Action.Poll(t), c), c), other) == Plan(c.capacity, Live(h, c), other)
  {
    PollIsOnePoll(h, c, t);
    LiveIsSound(h, c);
    if Plan(c.capacity, Live(h, c), t).Some? {
      AdmissionIsIndependent(c.capacity, Live(h, c), t, h.now, other);
    }
  }

  lemma PollStep(h: Host, c: Config, u: Ticket, t: Ticket)
    requires Inv(h, c) && LiveOwner(h, u)
    ensures var next := Apply(h, Action.Poll(u), c);
      && (t in h.grants ==> t in next.grants && next.grants[t] == h.grants[t])
      && (t !in h.grants && t in next.grants ==>
            t == u && Plan(c.capacity, Live(h, c), t) == Some(next.grants[t]))
      && (t !in next.grants && t == u ==> Plan(c.capacity, Live(h, c), t).None?)
      && (t !in next.grants ==> Plan(c.capacity, Live(next, c), t) == Plan(c.capacity, Live(h, c), t))
  {
    PollGrants(h, c, u);
    if t != u || Plan(c.capacity, Live(h, c), u).None? {
      PollKeepsOtherPlans(h, c, u, t);
    }
  }

  /** What polls give a ticket: its standing grant, or what the swept ledger has for it if it polls. */
  ghost predicate Granted(before: map<Ticket, int>, plan: Option<int>, polled: bool, after: map<Ticket, int>,
                          t: Ticket) {
    if t in before then t in after && after[t] == before[t]
    else if polled && plan.Some? then t in after && after[t] == plan.value
    else t !in after
  }

  /**
   Waiting processes that poll, in any order and any number of times, get what the one walk over the
   ledger as the first sweep leaves it gives them; a grant given before stays.
   */
  lemma {:induction false} PollsFollowTheFirstSweep(h: Host, tickets: seq<Ticket>, c: Config, t: Ticket)
    requires Inv(h, c) && forall u :: u in tickets ==> LiveOwner(h, u)
    ensures Granted(h.grants, Plan(c.capacity, Live(h, c), t), t in tickets, Run(h, Polls(tickets), c).grants, t)
    decreases |tickets|
  {
    if tickets != [] {
      var u, rest := tickets[0], tickets[1..];
      var next := Step(h, Action.Poll(u), c);
      assert Polls(tickets)[0] == Action.Poll(u) && Polls(tickets)[1..] == Polls(rest);
      PollStep(h, c, u, t);
      StepKeepsInv(h, Action.Poll(u), c);
      forall v | v in rest ensures LiveOwner(next, v) {
        PollKeepsOwners(h, c, u, v);
      }
      PollsFollowTheFirstSweep(next, rest, c, t);
      assert t in tickets <==> t == u || t in rest;
    }
  }

  /** Two polling orders of the same processes give the same grants. */
  lemma PollingOrdersAgree(h: Host, a: seq<Ticket>, b: seq<Ticket>, c: Config)
    requires Inv(h, c) && (forall u :: u in a <==> u in b) && forall u :: u in a ==> LiveOwner(h, u)
    ensures Run(h, Polls(a), c).grants == Run(h, Polls(b), c).grants
  {
    var left, right := Run(h, Polls(a), c).grants, Run(h, Polls(b), c).grants;
    forall t ensures t in left <==> t in right
      ensures t in left && t in right ==> left[t] == right[t]
    {
      PollsFollowTheFirstSweep(h, a, c, t);
      PollsFollowTheFirstSweep(h, b, c, t);
    }
    assert left.Keys == right.Keys;
  }

  // ---- a blocked head: nobody is admitted ----------------------------------------------------------

  /** The head of the swept queue does not fit. */
  ghost predicate Blocked(h: Host, c: Config) {
    HeadIsBlocked(c.capacity, Live(h, c))
  }

  lemma BlockedPollOnlySweeps(h: Host, c: Config, t: Ticket)
    requires Inv(h, c) && Blocked(h, c) && LiveOwner(h, t)
    ensures Apply(h, Action.Poll(t), c) == SweptHost(h, c, None)
  {
    BlockedHeadBlocksAll(c.capacity, Live(h, c), t);
    PollWrites(h, c, t);
  }

  lemma BlockedStepGrantsNobody(h: Host, a: Action, c: Config)
    requires Inv(h, c) && Blocked(h, c)
    ensures Step(h, a, c).grants == h.grants
  {
    if Enabled(h, a) && a.Poll? {
      BlockedPollOnlySweeps(h, c, a.ticket);
    }
  }

  lemma SettleUses(h: Host, c: Config, t: Ticket)
    requires Inv(h, c)
    ensures Used(Settled(h.dir, ProbeOf(h, c), t).doc.entries) <= Used(h.dir.doc.entries)
  {
    var entries := h.dir.doc.entries;
    if Registered(entries, t) {
      var k :| 0 <= k < |entries| && entries[k].ticket == t;
      assert forall e :: e in entries ==> ValidEntry(e);
      WithoutUses(entries, t);
      OrphanShape(entries, t, h.now, k);
    }
  }

  lemma BlockedStepUsesNoMore(h: Host, a: Action, c: Config)
    requires Inv(h, c) && Blocked(h, c)
    ensures Used(Step(h, a, c).dir.doc.entries) <= Used(h.dir.doc.entries)
  {
    if Enabled(h, a) {
      LiveIsSound(h, c);
      match a
      case Register(_, _, _, _) =>
        var entry := EntryToRegister(h, c, a);
        RegisterIsAppend(h, c, a);
        UsedConcat(Live(h, c), [entry]);
        assert [entry][1..] == [];
      case Poll(t) => BlockedPollOnlySweeps(h, c, t);
      case Settle(t) => SettleUses(h, c, t);
      case _ =>
    }
  }

  // ---- where the entries of the next sweep come from ---------------------------------------------------

  /** The same place in the queue. */
  predicate SamePlace(a: Entry, b: Entry) {
    a.ticket == b.ticket && a.seqNo == b.seqNo && a.state == b.state
  }

  ghost predicate ComesFrom(entries: seq<Entry>, e: Entry) {
    exists y :: y in entries && SamePlace(e, y)
  }

  /**
   Releasing a ticket again restarts the clock of an orphan that was already past the stale bound, so
   that the sweep that would have dropped it keeps it.
   */
  ghost predicate Revives(h: Host, a: Action, c: Config) {
    && a.Settle? && Enabled(h, a) && a.ticket in Held(h)
    && exists e :: e in h.dir.doc.entries && e.ticket == a.ticket && Stale(ProbeOf(h, c), e)
         && !Stale(ProbeOf(h, c), Orphaned(e, h.now))
  }

  function Orphaned(e: Entry, now: real): Entry {
    e.(supervisor := None, orphanedAt := Some(now))
  }

  predicate OsAction(a: Action) {
    !a.Register? && !a.Poll? && !a.Settle? && !a.Snapshot?
  }

  lemma HeldWasHeld(h: Host, a: Action, c: Config, t: Ticket)
    requires OsInv(h) && Enabled(h, a) && OsAction(a) && t in h.owner
    ensures t in Held(Apply(h, a, c)) ==> t in Held(h)
    ensures t in Apply(h, a, c).dir.leases ==> t in h.dir.leases
  {
  }

  lemma AliveWasAlive(h: Host, a: Action, c: Config, p: Process)
    requires Enabled(h, a) && OsAction(a) && p in h.known
    ensures p in Apply(h, a, c).alive ==> p in h.alive
    ensures h.now <= Apply(h, a, c).now
  {
  }

  /** Forking, dying, closing, opening a lease and the clock bring no reclaimable entry back. */
  lemma OsStepRevivesNothing(h: Host, a: Action, c: Config, next: Host, e: Entry)
    requires Inv(h, c) && Enabled(h, a) && OsAction(a) && next == Apply(h, a, c)
    requires e in h.dir.doc.entries && Keeps(next.dir.leases, ProbeOf(next, c), None, e)
    ensures Keeps(h.dir.leases, ProbeOf(h, c), None, e)
  {
    assert EntryInv(h, e);
    HeldWasHeld(h, a, c, e.ticket);
    AliveWasAlive(h, a, c, h.owner[e.ticket]);
  }

  lemma OsStepSource(h: Host, a: Action, c: Config, x: Entry)
    requires Inv(h, c) && Enabled(h, a)
    requires OsAction(a) && x in Live(Apply(h, a, c), c)
    ensures x in Live(h, c)
  {
    OsStepKeepsInv(h, c, a);
    LiveIsSound(Apply(h, a, c), c);
    LiveIsSound(h, c);
    OsStepRevivesNothing(h, a, c, Apply(h, a, c), x);
  }

  lemma OrphanEntry(entries: seq<Entry>, t: Ticket, now: real, x: Entry)
    requires DistinctTickets(entries) && Registered(entries, t) && x in Orphan(entries, t, now)
    ensures if x.ticket == t then exists e :: e in entries && e.ticket == t && x == Orphaned(e, now) else x in entries
  {
    var k :| 0 <= k < |entries| && entries[k].ticket == t;
    OrphanShape(entries, t, now, k);
    var i :| 0 <= i < |entries| && Orphan(entries, t, now)[i] == x;
    assert entries[i] in entries;
    if i != k {
      assert x == entries[i];
    }
  }

  /** After a release, an entry in the next sweep was there before, or its clock was just restarted. */
  lemma SettleSource(h: Host, a: Action, c: Config, x: Entry)
    requires Inv(h, c) && a.Settle? && Enabled(h, a)
    requires x in Live(Apply(h, a, c), c)
    ensures ComesFrom(Live(h, c), x) || (Revives(h, a, c) && x.ticket == a.ticket)
  {
    var t, probe := a.ticket, ProbeOf(h, c);
    var next := Apply(h, a, c);
    SettleKeepsInv(h, c, a);
    LiveIsSound(next, c);
    LiveIsSound(h, c);
    if Registered(h.dir.doc.entries, t) {
      if LeaseUnheld(h.dir.leases, probe, t) {
        WithoutContents(h.dir.doc.entries, t);
        assert SamePlace(x, x);
      } else {
        OrphanEntry(h.dir.doc.entries, t, h.now, x);
        OrphanSource(h, a, c, x);
      }
    } else {
      SettleNothing(h, c, a);
      assert SamePlace(x, x);
    }
  }

  lemma OrphanSource(h: Host, a: Action, c: Config, x: Entry)
    requires Inv(h, c) && a.Settle? && Enabled(h, a) && !LeaseUnheld(h.dir.leases, ProbeOf(h, c), a.ticket)
    requires Keeps(h.dir.leases, ProbeOf(h, c), None, x)
    requires if x.ticket == a.ticket
      then exists e :: e in h.dir.doc.entries && e.ticket == a.ticket && x == Orphaned(e, h.now)
      else x in h.dir.doc.entries
    ensures ComesFrom(Live(h, c), x) || (Revives(h, a, c) && x.ticket == a.ticket)
  {
    LiveIsSound(h, c);
    if x.ticket == a.ticket {
      var e :| e in h.dir.doc.entries && e.ticket == a.ticket && x == Orphaned(e, h.now);
      assert SamePlace(x, e);
      if e !in Live(h, c) {
        assert Stale(ProbeOf(h, c), e) && !Stale(ProbeOf(h, c), Orphaned(e, h.now));
      }
    } else {
      assert SamePlace(x, x);
    }
  }

  /** An entry of a swept document that is swept again was in it. */
  lemma SweptSource(h: Host, dir: Dir, next: Host, c: Config, x: Entry)
    requires next.dir == dir && x in Live(next, c)
    ensures x in dir.doc.entries
  {
    SelectContents(next.dir.leases, ProbeOf(next, c), None, next.dir.doc.entries, true);
  }

  /**
   Whatever the step, an entry of the next sweep was in this one at the same place, or was just
   registered behind everybody, or had its stale clock restarted by a second release.
   */
  lemma NextSweepSource(h: Host, a: Action, c: Config, x: Entry)
    requires Inv(h, c) && Blocked(h, c) && x in Live(Step(h, a, c), c)
    ensures (
      || ComesFrom(Live(h, c), x)
      || (a.Register? && Enabled(h, a) && x == EntryToRegister(h, c, a))
      || (Revives(h, a, c) && x.ticket == a.ticket))
  {
    assert SamePlace(x, x);
    if Enabled(h, a) {
      var next := Apply(h, a, c);
      match a
      case Register(_, _, _, _) =>
        RegisterIsAppend(h, c, a);
        SweptSource(h, next.dir, next, c, x);
      case Poll(t) =>
        BlockedPollOnlySweeps(h, c, t);
        SweptSource(h, next.dir, next, c, x);
      case Snapshot => SweptSource(h, next.dir, next, c, x);
      case Settle(_) => SettleSource(h, a, c, x);
      case _ => OsStepSource(h, a, c, x);
    }
  }

  // ---- the head of the swept queue -------------------------------------------------------------------------

  /** The head is the queued entry with the least sequence number. */
  lemma LeastIsFirst(entries: seq<Entry>, e: Entry)
    requires Increasing(entries) && e in entries && e.state == Queued
    requires forall x :: x in entries && x.state == Queued ==> e.seqNo <= x.seqNo
    ensures QueuedInOrder(entries) != [] && QueuedInOrder(entries)[0] == e
  {
    QueueIsSorted(entries);
    var queue := QueuedInOrder(entries);
    assert e in queue && queue[0] in queue;
    var j :| 0 <= j < |queue| && queue[j] == e;
    var i :| 0 <= i < |entries| && entries[i] == e;
    var k :| 0 <= k < |entries| && entries[k] == queue[0];
  }

  lemma FirstIsLeast(entries: seq<Entry>, x: Entry)
    requires QueuedInOrder(entries) != [] && x in entries && x.state == Queued
    ensures QueuedInOrder(entries)[0].seqNo <= x.seqNo
    ensures QueuedInOrder(entries)[0] in entries && QueuedInOrder(entries)[0].state == Queued
  {
    QueueIsSorted(entries);
    var queue := QueuedInOrder(entries);
    assert x in queue && queue[0] in queue;
    var j :| 0 <= j < |queue| && queue[j] == x;
  }

  /** The ticket whose turn it is. */
  ghost function Turn(h: Host, c: Config): Ticket
    requires QueuedInOrder(Live(h, c)) != []
  {
    QueuedInOrder(Live(h, c))[0].ticket
  }

  lemma TicketIsOne(entries: seq<Entry>, a: Entry, b: Entry)
    requires DistinctTickets(entries) && a in entries && b in entries && a.ticket == b.ticket
    ensures a == b
  {
    var i :| 0 <= i < |entries| && entries[i] == a;
    var j :| 0 <= j < |entries| && entries[j] == b;
  }

  /** The head keeps its place if nothing is revived and it is itself still there. */
  lemma HeadStaysFirst(h: Host, a: Action, c: Config)
    requires Inv(h, c) && Blocked(h, c) && !Revives(h, a, c)
    requires Turn(h, c) in Tickets(Live(Step(h, a, c), c))
    ensures QueuedInOrder(Live(Step(h, a, c), c)) != [] && Turn(Step(h, a, c), c) == Turn(h, c)
  {
    var next := Step(h, a, c);
    StepKeepsInv(h, a, c);
    LiveIsSound(next, c);
    LiveIsSound(h, c);
    QueueIsSorted(Live(h, c));
    var head := QueuedInOrder(Live(h, c))[0];
    assert head in QueuedInOrder(Live(h, c));
    var mine :| mine in Live(next, c) && mine.ticket == head.ticket;
    HeadIsTheSame(h, a, c, head, mine);
    forall x | x in Live(next, c) && x.state == Queued ensures mine.seqNo <= x.seqNo {
      NobodyPasses(h, a, c, head, x);
    }
    LeastIsFirst(Live(next, c), mine);
  }

  lemma HeadIsTheSame(h: Host, a: Action, c: Config, head: Entry, mine: Entry)
    requires Inv(h, c) && Blocked(h, c) && !Revives(h, a, c)
    requires head in Live(h, c) && mine in Live(Step(h, a, c), c) && mine.ticket == head.ticket
    ensures SamePlace(mine, head)
  {
    LiveIsSound(h, c);
    NextSweepSource(h, a, c, mine);
    assert EntryInv(h, head);
    var y :| y in Live(h, c) && SamePlace(mine, y);
    TicketIsOne(Live(h, c), head, y);
  }

  lemma NobodyPasses(h: Host, a: Action, c: Config, head: Entry, x: Entry)
    requires Inv(h, c) && Blocked(h, c) && !Revives(h, a, c)
    requires head == QueuedInOrder(Live(h, c))[0] && x in Live(Step(h, a, c), c) && x.state == Queued
    ensures head.seqNo <= x.seqNo
  {
    LiveIsSound(h, c);
    NextSweepSource(h, a, c, x);
    if ComesFrom(Live(h, c), x) {
      var y :| y in Live(h, c) && SamePlace(x, y);
      FirstIsLeast(Live(h, c), y);
    } else {
      QueueIsSorted(Live(h, c));
      assert head in QueuedInOrder(Live(h, c));
      assert Scheduled(head, h.dir.doc.nextSeq, c);
    }
  }

  // ---- a second release can take the turn -------------------------------------------------------------------

  /** A second release that revives a queued orphan in front of the head. */
  ghost predicate Overtakes(h: Host, a: Action, c: Config)
    requires QueuedInOrder(Live(h, c)) != []
  {
    && a.Settle? && Enabled(h, a) && a.ticket in Held(h)
    && exists e :: e in h.dir.doc.entries && e.ticket == a.ticket && e.state == Queued
         && e.seqNo < QueuedInOrder(Live(h, c))[0].seqNo
         && Stale(ProbeOf(h, c), e) && !Stale(ProbeOf(h, c), Orphaned(e, h.now))
  }

  ghost predicate LosesItsTurn(h: Host, a: Action, c: Config)
    requires QueuedInOrder(Live(h, c)) != []
  {
    var next := Live(Step(h, a, c), c);
    Turn(h, c) in Tickets(next) && QueuedInOrder(next) != [] && QueuedInOrder(next)[0].ticket != Turn(h, c)
  }

  lemma OrphanKeepsOthers(entries: seq<Entry>, e: Entry, now: real)
    requires DistinctTickets(entries) && e in entries
    ensures var after := Orphan(entries, e.ticket, now);
      && Orphaned(e, now) in after
      && forall x :: x in entries && x.ticket != e.ticket ==> x in after
  {
    var k :| 0 <= k < |entries| && entries[k] == e;
    OrphanShape(entries, e.ticket, now, k);
    var after := Orphan(entries, e.ticket, now);
    assert after[k] == Orphaned(e, now) && after[k] in after;
    forall x | x in entries && x.ticket != e.ticket ensures x in after {
      var i :| 0 <= i < |entries| && entries[i] == x;
      assert after[i] == x;
    }
  }

  lemma SettleOfHeldOrphans(h: Host, a: Action, c: Config, e: Entry)
    requires Inv(h, c) && a.Settle? && Enabled(h, a) && a.ticket in Held(h)
    requires e in h.dir.doc.entries && e.ticket == a.ticket
    ensures var next := Step(h, a, c);
      && next.dir == h.dir.(doc := h.dir.doc.(entries := Orphan(h.dir.doc.entries, a.ticket, h.now)))
      && ProbeOf(next, c) == ProbeOf(h, c) && a.ticket in h.dir.leases
      && Orphaned(e, h.now) in next.dir.doc.entries
      && forall x :: x in h.dir.doc.entries && x.ticket != a.ticket ==> x in next.dir.doc.entries
  {
    assert EntryInv(h, e);
    OrphanKeepsOthers(h.dir.doc.entries, e, h.now);
  }

  /** Such a release does take the turn. */
  lemma OvertakingTakesTheTurn(h: Host, a: Action, c: Config)
    requires Inv(h, c) && Blocked(h, c) && Overtakes(h, a, c)
    ensures LosesItsTurn(h, a, c)
  {
    var head := QueuedInOrder(Live(h, c))[0];
    var next := Step(h, a, c);
    var e :| e in h.dir.doc.entries && e.ticket == a.ticket && e.state == Queued && e.seqNo < head.seqNo
      && Stale(ProbeOf(h, c), e) && !Stale(ProbeOf(h, c), Orphaned(e, h.now));
    SettleOfHeldOrphans(h, a, c, e);
    StepKeepsInv(h, a, c);
    LiveIsSound(h, c);
    LiveIsSound(next, c);
    QueueIsSorted(Live(h, c));
    assert head in QueuedInOrder(Live(h, c));
    assert head.ticket != a.ticket by {
      if head.ticket == a.ticket {
        TicketIsOne(h.dir.doc.entries, head, e);
      }
    }
    assert head in Live(next, c) && Orphaned(e, h.now) in Live(next, c);
    assert QueuedInOrder(Live(next, c)) != [] by {
      QueueIsSorted(Live(next, c));
      assert Orphaned(e, h.now) in QueuedInOrder(Live(next, c));
    }
    FirstIsLeast(Live(next, c), Orphaned(e, h.now));
    if QueuedInOrder(Live(next, c))[0].ticket == head.ticket {
      TicketIsOne(Live(next, c), QueuedInOrder(Live(next, c))[0], head);
    }
  }

  /** And nothing else does. */
  lemma TurnIsLostByOvertaking(h: Host, a: Action, c: Config)
    requires Inv(h, c) && Blocked(h, c) && LosesItsTurn(h, a, c)
    ensures Overtakes(h, a, c)
  {
    if !Revives(h, a, c) {
      HeadStaysFirst(h, a, c);
    }
    var head, first := QueuedInOrder(Live(h, c))[0], QueuedInOrder(Live(Step(h, a, c), c))[0];
    StepKeepsInv(h, a, c);
    LiveIsSound(h, c);
    LiveIsSound(Step(h, a, c), c);
    RevivedIsAhead(h, a, c, head, first);
  }

  lemma RevivedIsAhead(h: Host, a: Action, c: Config, head: Entry, first: Entry)
    requires Inv(h, c) && Inv(Step(h, a, c), c) && Blocked(h, c) && LosesItsTurn(h, a, c) && Revives(h, a, c)
    requires head == QueuedInOrder(Live(h, c))[0] && first == QueuedInOrder(Live(Step(h, a, c), c))[0]
    ensures Overtakes(h, a, c)
  {
    var next := Step(h, a, c);
    var e :| e in h.dir.doc.entries && e.ticket == a.ticket && Stale(ProbeOf(h, c), e)
      && !Stale(ProbeOf(h, c), Orphaned(e, h.now));
    HeadIsStillLive(h, a, c, e, head);
    QueueIsSorted(Live(next, c));
    assert first in QueuedInOrder(Live(next, c));
    FirstIsLeast(Live(next, c), head);
    FirstIsAhead(h, a, c, e, head, first);
  }

  /** A release that revives another ticket leaves the entry of the head as it is. */
  lemma HeadIsStillLive(h: Host, a: Action, c: Config, e: Entry, head: Entry)
    requires Inv(h, c) && Inv(Step(h, a, c), c) && a.Settle? && Enabled(h, a) && a.ticket in Held(h)
    requires e in h.dir.doc.entries && e.ticket == a.ticket && Stale(ProbeOf(h, c), e)
    requires QueuedInOrder(Live(h, c)) != [] && head == QueuedInOrder(Live(h, c))[0]
    requires Turn(h, c) in Tickets(Live(Step(h, a, c), c))
    ensures head in Live(h, c) && head in Live(Step(h, a, c), c) && head.ticket != a.ticket && head.state == Queued
  {
    var next := Step(h, a, c);
    SettleOfHeldOrphans(h, a, c, e);
    LiveIsSound(h, c);
    LiveIsSound(next, c);
    QueueIsSorted(Live(h, c));
    assert head in QueuedInOrder(Live(h, c));
    if head.ticket == a.ticket {
      TicketIsOne(h.dir.doc.entries, head, e);
    }
    var mine :| mine in Live(next, c) && mine.ticket == head.ticket;
    TicketIsOne(next.dir.doc.entries, mine, head);
  }

  lemma FirstIsAhead(h: Host, a: Action, c: Config, e: Entry, head: Entry, first: Entry)
    requires Inv(h, c) && Inv(Step(h, a, c), c) && a.Settle? && Enabled(h, a) && a.ticket in Held(h)
    requires e in h.dir.doc.entries && e.ticket == a.ticket
    requires QueuedInOrder(Live(h, c)) != [] && head == QueuedInOrder(Live(h, c))[0]
    requires first in Live(Step(h, a, c), c) && first.state == Queued
    requires first.ticket != head.ticket && first.seqNo <= head.seqNo
    ensures first == Orphaned(e, h.now) && e.state == Queued && e.seqNo < head.seqNo
  {
    var next := Step(h, a, c);
    SettleOfHeldOrphans(h, a, c, e);
    LiveIsSound(h, c);
    LiveIsSound(next, c);
    QueueIsSorted(Live(h, c));
    assert head in QueuedInOrder(Live(h, c));
    RegisteredTickets(h.dir.doc.entries, a.ticket);
    OrphanEntry(h.dir.doc.entries, a.ticket, h.now, first);
    if first.ticket != a.ticket {
      FirstIsLeast(Live(h, c), first);
      SeqIsOne(h.dir.doc.entries, first, head);
    } else {
      var f :| f in h.dir.doc.entries && f.ticket == a.ticket && first == Orphaned(f, h.now);
      TicketIsOne(h.dir.doc.entries, e, f);
      if e.seqNo == head.seqNo {
        SeqIsOne(h.dir.doc.entries, e, head);
      }
    }
  }

  lemma SeqIsOne(entries: seq<Entry>, a: Entry, b: Entry)
    requires Increasing(entries) && a in entries && b in entries && a.seqNo == b.seqNo
    ensures a == b
  {
    var i :| 0 <= i < |entries| && entries[i] == a;
    var j :| 0 <= j < |entries| && entries[j] == b;
  }

  /**
   A blocked head that is still there loses its turn if and only if a second release revives a stale
   orphan in front of it; no poll, arrival, death, fork, close or sweep passes it.
   */
  lemma TurnIsLostIffOvertaken(h: Host, a: Action, c: Config)
    requires Inv(h, c) && Blocked(h, c)
    ensures LosesItsTurn(h, a, c) <==> Overtakes(h, a, c)
  {
    if Overtakes(h, a, c) {
      OvertakingTakesTheTurn(h, a, c);
    }
    if LosesItsTurn(h, a, c) {
      TurnIsLostByOvertaking(h, a, c);
    }
  }

  // ---- a second release does take turns ----------------------------------------------------------------------

  function Daemon(pid: int): Process {
    Supervisor(pid, None)
  }

  function RunningEntry(t: Ticket): Entry {
    Entry(t, 1, "run", 1, 1, Some(1), Running, 1.0, Some(1.0), Some(Daemon(1)), None)
  }

  function LeftEntry(t: Ticket): Entry {
    Entry(t, 2, "run", 1, 1, None, Queued, 1.0, None, None, Some(1.0))
  }

  function WaitingEntry(t: Ticket): Entry {
    Entry(t, 3, "run", 1, 1, None, Queued, 1.0, None, Some(Daemon(4)), None)
  }

  const OneProcessor := Config(1, 10.0)
  const Daemons := {Daemon(1), Daemon(2), Daemon(3), Daemon(4)}

  /**
   The one processor in use; behind it a released ticket whose descendant, process 3, lives on past
   the stale bound; behind that a process still waiting.
   */
  function Crowd(first: Ticket, left: Ticket, waiting: Ticket): Host {
    Host(
      Dir(Doc(4, [RunningEntry(first), LeftEntry(left), WaitingEntry(waiting)]), {first, left, waiting}),
      map[first := {Daemon(1)}, left := {Daemon(3)}, waiting := {Daemon(4)}], Daemons, Daemons, 20.0,
      map[first := Daemon(1), left := Daemon(2), waiting := Daemon(4)],
      {first, left, waiting}, {first, waiting}, map[first := 1], {})
  }

  predicate ThreeTickets(first: Ticket, left: Ticket, waiting: Ticket) {
    && ValidTicket(first) && ValidTicket(left) && ValidTicket(waiting)
    && first != left && first != waiting && left != waiting
  }

  lemma UsedOfThree(a: Entry, b: Entry, d: Entry)
    ensures Used([a, b, d]) == GrantOf(a) + GrantOf(b) + GrantOf(d)
  {
    assert [a, b, d][1..] == [b, d] && [b, d][1..] == [d] && [d][1..] == [];
    assert Used([d]) == GrantOf(d);
    assert Used([b, d]) == GrantOf(b) + GrantOf(d);
  }

  lemma ThreeAreOrdered(a: Entry, b: Entry, d: Entry)
    requires a.ticket != b.ticket && a.ticket != d.ticket && b.ticket != d.ticket
    requires a.seqNo < b.seqNo < d.seqNo
    ensures DistinctTickets([a, b, d]) && Increasing([a, b, d])
  {
  }

  lemma CrowdDoc(first: Ticket, left: Ticket, waiting: Ticket)
    requires ThreeTickets(first, left, waiting)
    ensures DocInv(Crowd(first, left, waiting).dir.doc, OneProcessor)
  {
    var entries := Crowd(first, left, waiting).dir.doc.entries;
    assert forall e :: e in entries ==> e == RunningEntry(first) || e == LeftEntry(left) || e == WaitingEntry(waiting);
    ThreeAreOrdered(RunningEntry(first), LeftEntry(left), WaitingEntry(waiting));
    UsedOfThree(RunningEntry(first), LeftEntry(left), WaitingEntry(waiting));
  }

  lemma CrowdOs(first: Ticket, left: Ticket, waiting: Ticket)
    requires ThreeTickets(first, left, waiting)
    ensures OsInv(Crowd(first, left, waiting))
  {
    var h := Crowd(first, left, waiting);
    assert h.holders.Keys == {first, left, waiting} == h.owner.Keys;
    assert h.grants.Keys == {first};
  }

  lemma CrowdEntries(first: Ticket, left: Ticket, waiting: Ticket)
    requires ThreeTickets(first, left, waiting)
    ensures EntriesInv(Crowd(first, left, waiting))
  {
    var h := Crowd(first, left, waiting);
    forall e | e in h.dir.doc.entries ensures EntryInv(h, e) {
      assert e == RunningEntry(first) || e == LeftEntry(left) || e == WaitingEntry(waiting);
    }
  }

  lemma CrowdLeases(first: Ticket, left: Ticket, waiting: Ticket)
    requires ThreeTickets(first, left, waiting)
    ensures LeaseInv(Crowd(first, left, waiting))
  {
    var h := Crowd(first, left, waiting);
    var entries := h.dir.doc.entries;
    assert entries[0] in entries && entries[1] in entries && entries[2] in entries;
    assert first in Tickets(entries) && left in Tickets(entries) && waiting in Tickets(entries);
  }

  lemma SelectOfThree(leases: set<Ticket>, probe: Probe, a: Entry, b: Entry, d: Entry)
    requires Keeps(leases, probe, None, a) && !Keeps(leases, probe, None, b) && Keeps(leases, probe, None, d)
    ensures Select(leases, probe, None, [a, b, d], true) == [a, d]
  {
    assert [a, b, d][1..] == [b, d] && [b, d][1..] == [d] && [d][1..] == [];
    assert Select(leases, probe, None, [d], true) == [d];
  }

  lemma CrowdQueue(first: Ticket, left: Ticket, waiting: Ticket)
    requires ThreeTickets(first, left, waiting)
    ensures var h := Crowd(first, left, waiting);
      && Live(h, OneProcessor) == [RunningEntry(first), WaitingEntry(waiting)]
      && QueuedInOrder(Live(h, OneProcessor)) == [WaitingEntry(waiting)]
      && Blocked(h, OneProcessor)
  {
    var h, a, d := Crowd(first, left, waiting), RunningEntry(first), WaitingEntry(waiting);
    SelectOfThree(h.dir.leases, ProbeOf(h, OneProcessor), a, LeftEntry(left), d);
    assert [a, d][1..] == [d] && [d][1..] == [];
    assert QueuedInOrder([d]) == [d];
    assert Used([d]) == 0;
  }

  lemma CrowdOvertakes(first: Ticket, left: Ticket, waiting: Ticket)
    requires ThreeTickets(first, left, waiting)
    ensures QueuedInOrder(Live(Crowd(first, left, waiting), OneProcessor)) != []
    ensures Overtakes(Crowd(first, left, waiting), Action.Settle(left), OneProcessor)
  {
    var h := Crowd(first, left, waiting);
    CrowdQueue(first, left, waiting);
    assert Enabled(h, Action.Settle(left)) && left in Held(h);
    var e := LeftEntry(left);
    assert h.dir.doc.entries[1] == e;
    assert e in h.dir.doc.entries && e.ticket == left && e.state == Queued;
    assert Stale(ProbeOf(h, OneProcessor), e) && !Stale(ProbeOf(h, OneProcessor), Orphaned(e, h.now));
  }

  /**
   The waiting process is first in the queue; releasing the released ticket once more puts that one
   in front of it again, whatever the three tickets.
   */
  lemma SecondReleaseTakesTheTurn(first: Ticket, left: Ticket, waiting: Ticket, h: Host)
    requires ThreeTickets(first, left, waiting) && h == Crowd(first, left, waiting)
    ensures Inv(h, OneProcessor) && Blocked(h, OneProcessor) && Turn(h, OneProcessor) == waiting
    ensures Overtakes(h, Action.Settle(left), OneProcessor) && LosesItsTurn(h, Action.Settle(left), OneProcessor)
  {
    CrowdDoc(first, left, waiting);
    CrowdOs(first, left, waiting);
    CrowdEntries(first, left, waiting);
    CrowdLeases(first, left, waiting);
    CrowdQueue(first, left, waiting);
    CrowdOvertakes(first, left, waiting);
    OvertakingTakesTheTurn(h, Action.Settle(left), OneProcessor);
  }

  // ---- whole runs ----------------------------------------------------------------------------------------------

  /** The head of the swept queue is blocked before every step. */
  ghost predicate BlockedThroughout(h: Host, actions: seq<Action>, c: Config)
    decreases |actions|
  {
    actions != [] ==> Blocked(h, c) && BlockedThroughout(Step(h, actions[0], c), actions[1..], c)
  }

  /** No starvation, over every run: while the head is blocked, nobody is admitted and used capacity never rises. */
  lemma {:induction false} BlockedHeadAdmitsNobody(h: Host, actions: seq<Action>, c: Config)
    requires Inv(h, c) && BlockedThroughout(h, actions, c)
    ensures Run(h, actions, c).grants == h.grants
    ensures Used(Run(h, actions, c).dir.doc.entries) <= Used(h.dir.doc.entries)
    decreases |actions|
  {
    if actions != [] {
      BlockedStepGrantsNobody(h, actions[0], c);
      BlockedStepUsesNoMore(h, actions[0], c);
      StepKeepsInv(h, actions[0], c);
      BlockedHeadAdmitsNobody(Step(h, actions[0], c), actions[1..], c);
    }
  }

  ghost predicate NobodyRevives(h: Host, actions: seq<Action>, c: Config)
    decreases |actions|
  {
    actions != [] ==> !Revives(h, actions[0], c) && NobodyRevives(Step(h, actions[0], c), actions[1..], c)
  }

  /** A registered ticket is first in the swept queue, or is not in it at all. */
  ghost predicate FirstOrGone(h: Host, c: Config, t: Ticket) {
    && t in h.registered
    && (t in Tickets(Live(h, c)) ==> QueuedInOrder(Live(h, c)) != [] && Turn(h, c) == t)
  }

  lemma StepKeepsFirstOrGone(h: Host, a: Action, c: Config, t: Ticket)
    requires Inv(h, c) && Blocked(h, c) && !Revives(h, a, c) && FirstOrGone(h, c, t)
    ensures FirstOrGone(Step(h, a, c), c, t)
  {
    var next := Step(h, a, c);
    if t in Tickets(Live(next, c)) {
      if t in Tickets(Live(h, c)) {
        HeadStaysFirst(h, a, c);
      } else {
        var x :| x in Live(next, c) && x.ticket == t;
        NoneComesBack(h, a, c, x);
      }
    }
  }

  lemma NoneComesBack(h: Host, a: Action, c: Config, x: Entry)
    requires Inv(h, c) && Blocked(h, c) && !Revives(h, a, c) && x.ticket in h.registered
    requires x in Live(Step(h, a, c), c)
    ensures x.ticket in Tickets(Live(h, c))
  {
    NextSweepSource(h, a, c, x);
    assert a.Register? && Enabled(h, a) ==> EntryToRegister(h, c, a).ticket !in h.registered;
    var y :| y in Live(h, c) && SamePlace(x, y);
  }

  /** The ticket whose turn it is keeps its turn over every run that leaves it blocked, until it leaves itself. */
  lemma {:induction false} BlockedHeadKeepsTheTurn(h: Host, actions: seq<Action>, c: Config, t: Ticket)
    requires Inv(h, c) && BlockedThroughout(h, actions, c) && NobodyRevives(h, actions, c)
    requires FirstOrGone(h, c, t)
    ensures FirstOrGone(Run(h, actions, c), c, t)
    decreases |actions|
  {
    if actions != [] {
      StepKeepsFirstOrGone(h, actions[0], c, t);
      StepKeepsInv(h, actions[0], c);
      BlockedHeadKeepsTheTurn(Step(h, actions[0], c), actions[1..], c, t);
    }
  }
}
