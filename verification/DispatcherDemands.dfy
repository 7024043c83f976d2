/**
 What the processes asked for and when (tools/gc_dispatch/ledger.py): over every run the entries of the
 ledger say exactly that, so grants and the stale bound are about the real demands and events.
 */
module DispatcherDemands {
  import opened Wrappers
  import opened Records
  import opened Admission
  import opened Ledger
  import opened DispatcherRuns
  import opened DispatcherTurns

  // ---- the history of the calls ------------------------------------------------------------

  /** One registration: its arguments, which one it was on this host, and its clock. */
  datatype Demand = Demand(profile: string, requested: int, minimum: int, place: nat, at: real)

  /** What was asked, when a process was told its grant, and when it last released. */
  datatype History = History(asked: map<Ticket, Demand>, started: map<Ticket, real>, released: map<Ticket, real>)

  const NoHistory := History(map[], map[], map[])

  /** Reads the calls and their answers, never the ledger. */
  ghost function Recorded(y: History, h: Host, a: Action, next: Host): History {
    if !Enabled(h, a) then y
    else
      match a
      case Register(t, profile, requested, minimum) =>
        y.(asked := y.asked[t := Demand(profile, requested, minimum, |h.registered| + 1, h.now)])
      case Poll(t) => if t in next.grants && t !in h.grants then y.(started := y.started[t := h.now]) else y
      case Settle(t) => y.(released := y.released[t := h.now])
      case _ => y
  }

  ghost function HistoryOf(y: History, h: Host, actions: seq<Action>, c: Config): History
    decreases |actions|
  {
    if actions == [] then y
    else
      var next := Step(h, actions[0], c);
      HistoryOf(Recorded(y, h, actions[0], next), next, actions[1..], c)
  }

  // ---- the ledger agrees with it ---------------------------------------------------------------

  function At<V>(m: map<Ticket, V>, t: Ticket): Option<V> {
    if t in m then Some(m[t]) else None
  }

  /** Every field of an entry, by the calls of its own ticket. */
  ghost predicate EntryAgrees(y: History, h: Host, e: Entry) {
    && e.ticket in y.asked && e.ticket in h.owner
    && e.profile == y.asked[e.ticket].profile && e.requested == y.asked[e.ticket].requested
    && e.minimum == y.asked[e.ticket].minimum && e.seqNo == y.asked[e.ticket].place
    && e.enqueuedAt == y.asked[e.ticket].at
    && e.granted == At(h.grants, e.ticket) && e.startedAt == At(y.started, e.ticket)
    && e.orphanedAt == At(y.released, e.ticket)
    && e.supervisor == if e.ticket in y.released then None else Some(h.owner[e.ticket])
  }

  ghost predicate EntriesAgree(y: History, h: Host) {
    forall e :: e in h.dir.doc.entries ==> EntryAgrees(y, h, e)
  }

  /** At most what was asked; at least the minimum asked, or the whole host. */
  predicate MeetsDemand(d: Demand, grant: int, capacity: int) {
    var total := if capacity < 1 then 1 else capacity;
    1 <= grant <= total && grant <= d.requested && (d.minimum <= grant || grant == total)
  }

  ghost predicate GrantsFit(y: History, h: Host, c: Config) {
    forall t :: t in h.grants ==> t in y.asked && MeetsDemand(y.asked[t], h.grants[t], c.capacity)
  }

  /** A registration comes before the grant, and both before the release. */
  ghost predicate Ordered(y: History, now: real) {
    && (forall t :: t in y.asked ==> 0.0 <= y.asked[t].at <= now)
    && (forall t :: t in y.started ==> t in y.asked && y.asked[t].at <= y.started[t] <= now)
    && (forall t :: t in y.released ==>
          && t in y.asked && y.asked[t].at <= y.released[t] <= now
          && (t in y.started ==> y.started[t] <= y.released[t]))
  }

  ghost predicate KeysAgree(y: History, h: Host) {
    && y.asked.Keys == h.registered && y.started.Keys == h.grants.Keys
    && y.released.Keys <= h.registered && y.released.Keys !! h.open
    && h.dir.doc.nextSeq == |h.registered| + 1
  }

  ghost predicate Agrees(y: History, h: Host, c: Config) {
    KeysAgree(y, h) && EntriesAgree(y, h) && GrantsFit(y, h, c) && Ordered(y, h.now)
  }

  // ---- every step keeps the agreement -------------------------------------------------------------

  lemma SweepAgrees(y: History, h: Host, c: Config)
    requires Inv(h, c) && Agrees(y, h, c)
    ensures Agrees(y, SweptHost(h, c, None), c)
  {
    LiveIsSound(h, c);
    SweptFrame(h, c, None);
    var next := SweptHost(h, c, None);
    forall e | e in next.dir.doc.entries ensures EntryAgrees(y, next, e) {
      assert EntryAgrees(y, h, e);
    }
  }

  lemma AppendAgrees(y: History, h: Host, c: Config, a: Action, entry: Entry, next: Host, z: History)
    requires Inv(h, c) && Agrees(y, h, c) && a.Register? && a.ticket !in h.registered && a.ticket in h.owner
    requires 0.0 <= h.now && next == Appended(h, entry)
    requires entry
      == NewEntry(a.ticket, h.dir.doc.nextSeq, a.profile, a.requested, a.minimum, h.now, h.owner[a.ticket])
    requires z
      == y.(asked := y.asked[a.ticket := Demand(a.profile, a.requested, a.minimum, |h.registered| + 1, h.now)])
    ensures Agrees(z, next, c)
  {
    AppendedEntriesAgree(y, h, a, entry, next, z);
    AskIsOrdered(y, a.ticket, z, h.now);
    KeysAfterAsk(y, h, next, a.ticket, z, c);
  }

  lemma KeysAfterAsk(y: History, h: Host, next: Host, t: Ticket, z: History, c: Config)
    requires KeysAgree(y, h) && GrantsFit(y, h, c) && t !in h.registered
    requires next.registered == h.registered + {t} && next.grants == h.grants && next.open == h.open
    requires next.dir.doc.nextSeq == h.dir.doc.nextSeq + 1
    requires z == y.(asked := z.asked) && t in z.asked && z.asked == y.asked[t := z.asked[t]]
    ensures KeysAgree(z, next) && GrantsFit(z, next, c)
  {
  }

  lemma AppendedEntriesAgree(y: History, h: Host, a: Action, entry: Entry, next: Host, z: History)
    requires EntriesAgree(y, h) && EntriesInv(h) && a.Register? && a.ticket !in h.registered && a.ticket in h.owner
    requires KeysAgree(y, h) && a.ticket !in h.grants && next == Appended(h, entry)
    requires entry
      == NewEntry(a.ticket, h.dir.doc.nextSeq, a.profile, a.requested, a.minimum, h.now, h.owner[a.ticket])
    requires z
      == y.(asked := y.asked[a.ticket := Demand(a.profile, a.requested, a.minimum, |h.registered| + 1, h.now)])
    ensures EntriesAgree(z, next)
  {
    forall e | e in next.dir.doc.entries ensures EntryAgrees(z, next, e) {
      if e in h.dir.doc.entries {
        assert EntryAgrees(y, h, e) && EntryInv(h, e);
      } else {
        assert e == entry;
      }
    }
  }

  lemma AskIsOrdered(y: History, t: Ticket, z: History, now: real)
    requires Ordered(y, now) && 0.0 <= now && t !in y.asked
    requires z == y.(asked := z.asked) && t in z.asked && z.asked == y.asked[t := z.asked[t]] && z.asked[t].at == now
    ensures Ordered(z, now)
  {
  }

  lemma RegisterAgrees(y: History, h: Host, c: Config, a: Action)
    requires Inv(h, c) && Agrees(y, h, c) && a.Register? && Enabled(h, a) && 0.0 <= h.now
    ensures Agrees(Recorded(y, h, a, Apply(h, a, c)), Apply(h, a, c), c)
  {
    SweepAgrees(y, h, c);
    SweepKeepsInv(h, c, None);
    SweptFrame(h, c, None);
    RegisterIsAppend(h, c, a);
    AppendAgrees(y, SweptHost(h, c, None), c, a, EntryToRegister(h, c, a), Apply(h, a, c),
                 Recorded(y, h, a, Apply(h, a, c)));
  }

  lemma AdmittedEntriesAgree(y: History, h: Host, next: Host, k: nat, grant: int, z: History)
    requires EntriesAgree(y, h) && DistinctTickets(h.dir.doc.entries) && k < |h.dir.doc.entries|
    requires next == h.(dir := next.dir, grants := h.grants[h.dir.doc.entries[k].ticket := grant])
    requires next.dir.doc.entries == h.dir.doc.entries[k := h.dir.doc.entries[k].(
      state := Running, granted := Some(grant), startedAt := Some(h.now))]
    requires z == y.(started := y.started[h.dir.doc.entries[k].ticket := h.now])
    ensures EntriesAgree(z, next)
  {
    var before, after := h.dir.doc.entries, next.dir.doc.entries;
    forall e | e in after ensures EntryAgrees(z, next, e) {
      var i :| 0 <= i < |after| && after[i] == e;
      assert EntryAgrees(y, h, before[i]);
    }
  }

  lemma PlanFits(y: History, h: Host, c: Config, t: Ticket)
    requires DocInv(h.dir.doc, c) && EntriesAgree(y, h) && Plan(c.capacity, h.dir.doc.entries, t).Some?
    ensures t in y.asked && MeetsDemand(y.asked[t], Plan(c.capacity, h.dir.doc.entries, t).value, c.capacity)
  {
    var k := PlanIsQueued(c.capacity, h.dir.doc.entries, t);
    assert EntryAgrees(y, h, h.dir.doc.entries[k]) && ValidEntry(h.dir.doc.entries[k]);
  }

  lemma AdmittedShape(h: Host, c: Config, t: Ticket, next: Host) returns (k: nat)
    requires Inv(h, c) && Plan(c.capacity, h.dir.doc.entries, t).Some? && next == AdmittedHost(h, c, t)
    ensures k < |h.dir.doc.entries| && h.dir.doc.entries[k].ticket == t && t in h.registered
    ensures var grant := Plan(c.capacity, h.dir.doc.entries, t).value;
      && next == h.(dir := next.dir, grants := h.grants[t := grant])
      && next.dir.doc == h.dir.doc.(entries := h.dir.doc.entries[k := h.dir.doc.entries[k].(
           state := Running, granted := Some(grant), startedAt := Some(h.now))])
  {
    k := AdmitKeepsDoc(h.dir.doc, t, h.now, c);
    assert EntryInv(h, h.dir.doc.entries[k]);
  }

  lemma AdmitAgrees(y: History, h: Host, c: Config, t: Ticket, next: Host, z: History)
    requires Inv(h, c) && Agrees(y, h, c) && t !in h.grants && t !in y.released
    requires Plan(c.capacity, h.dir.doc.entries, t).Some? && z == y.(started := y.started[t := h.now])
    requires next == AdmittedHost(h, c, t)
    ensures Agrees(z, next, c)
  {
    var k := AdmittedShape(h, c, t, next);
    var grant := Plan(c.capacity, h.dir.doc.entries, t).value;
    PlanFits(y, h, c, t);
    AdmittedAgrees(y, h, c, t, k, grant, next, z);
  }

  lemma AdmittedAgrees(y: History, h: Host, c: Config, t: Ticket, k: nat, grant: int, next: Host, z: History)
    requires Agrees(y, h, c) && DistinctTickets(h.dir.doc.entries) && t in h.registered && t !in y.released
    requires k < |h.dir.doc.entries| && h.dir.doc.entries[k].ticket == t
    requires next == h.(dir := next.dir, grants := h.grants[t := grant])
    requires next.dir.doc == h.dir.doc.(entries := h.dir.doc.entries[k := h.dir.doc.entries[k].(
      state := Running, granted := Some(grant), startedAt := Some(h.now))])
    requires z == y.(started := y.started[t := h.now]) && MeetsDemand(y.asked[t], grant, c.capacity)
    ensures Agrees(z, next, c)
  {
    AdmittedEntriesAgree(y, h, next, k, grant, z);
    StartIsOrdered(y, t, h.now, z);
    KeysAfterStart(y, h, next, t, z);
  }

  lemma StartIsOrdered(y: History, t: Ticket, now: real, z: History)
    requires Ordered(y, now) && t in y.asked && t !in y.released && z == y.(started := y.started[t := now])
    ensures Ordered(z, now)
  {
  }

  lemma KeysAfterStart(y: History, h: Host, next: Host, t: Ticket, z: History)
    requires KeysAgree(y, h) && t in h.registered && z == y.(started := y.started[t := h.now])
    requires next.registered == h.registered && next.open == h.open && next.grants.Keys == h.grants.Keys + {t}
    requires next.dir.doc.nextSeq == h.dir.doc.nextSeq
    ensures KeysAgree(z, next)
  {
  }

  lemma PollAgrees(y: History, h: Host, c: Config, a: Action)
    requires Inv(h, c) && Agrees(y, h, c) && a.Poll? && Enabled(h, a)
    ensures Agrees(Recorded(y, h, a, Apply(h, a, c)), Apply(h, a, c), c)
  {
    SweepAgrees(y, h, c);
    SweepKeepsInv(h, c, None);
    SweptFrame(h, c, None);
    PollWrites(h, c, a.ticket);
    PollGrants(h, c, a.ticket);
    if Plan(c.capacity, Live(h, c), a.ticket).Some? {
      AdmitAgrees(y, SweptHost(h, c, None), c, a.ticket, Apply(h, a, c), Recorded(y, h, a, Apply(h, a, c)));
    }
  }

  lemma SettleFrame(h: Host, c: Config, a: Action)
    requires a.Settle? && Enabled(h, a)
    ensures var next := Apply(h, a, c);
      && next == h.(dir := next.dir, reclaimed := next.reclaimed)
      && next.dir.doc.nextSeq == h.dir.doc.nextSeq && a.ticket in h.registered && a.ticket !in h.open
  {
  }

  lemma SettleAgrees(y: History, h: Host, c: Config, a: Action)
    requires Inv(h, c) && Agrees(y, h, c) && a.Settle? && Enabled(h, a)
    ensures Agrees(Recorded(y, h, a, Apply(h, a, c)), Apply(h, a, c), c)
  {
    SettledEntriesAgree(y, h, c, a);
    SettleFrame(h, c, a);
    ReleaseAgrees(y, h, c, a.ticket, Apply(h, a, c), y.(released := y.released[a.ticket := h.now]));
  }

  lemma ReleaseAgrees(y: History, h: Host, c: Config, t: Ticket, next: Host, z: History)
    requires Agrees(y, h, c) && t in h.registered && t !in h.open && z == y.(released := y.released[t := h.now])
    requires next == h.(dir := next.dir, reclaimed := next.reclaimed)
    requires next.dir.doc.nextSeq == h.dir.doc.nextSeq && EntriesAgree(z, next)
    ensures Agrees(z, next, c)
  {
    ReleaseIsOrdered(y, t, h.now, z);
  }

  lemma ReleaseIsOrdered(y: History, t: Ticket, now: real, z: History)
    requires Ordered(y, now) && t in y.asked && z == y.(released := y.released[t := now])
    ensures Ordered(z, now)
  {
  }

  lemma SettledEntriesAgree(y: History, h: Host, c: Config, a: Action)
    requires Inv(h, c) && Agrees(y, h, c) && a.Settle? && Enabled(h, a)
    ensures EntriesAgree(Recorded(y, h, a, Apply(h, a, c)), Apply(h, a, c))
  {
    var z, next := Recorded(y, h, a, Apply(h, a, c)), Apply(h, a, c);
    var entries := h.dir.doc.entries;
    forall e | e in next.dir.doc.entries ensures EntryAgrees(z, next, e) {
      SettledFrom(entries, h, c, a, e);
      SettledEntry(y, h, c, a, e);
    }
  }

  lemma SettledFrom(entries: seq<Entry>, h: Host, c: Config, a: Action, e: Entry)
    requires Inv(h, c) && a.Settle? && entries == h.dir.doc.entries
    requires e in Settled(h.dir, ProbeOf(h, c), a.ticket).doc.entries
    ensures (e in entries && e.ticket != a.ticket)
      || exists was :: was in entries && was.ticket == a.ticket && e == Orphaned(was, h.now)
  {
    if Registered(entries, a.ticket) {
      if LeaseUnheld(h.dir.leases, ProbeOf(h, c), a.ticket) {
        WithoutContents(entries, a.ticket);
      } else {
        OrphanEntry(entries, a.ticket, h.now, e);
      }
    } else {
      var i :| 0 <= i < |entries| && entries[i] == e;
    }
  }

  lemma SettledEntry(y: History, h: Host, c: Config, a: Action, e: Entry)
    requires Inv(h, c) && Agrees(y, h, c) && a.Settle? && Enabled(h, a)
    requires (e in h.dir.doc.entries && e.ticket != a.ticket)
      || exists was :: was in h.dir.doc.entries && was.ticket == a.ticket && e == Orphaned(was, h.now)
    ensures EntryAgrees(Recorded(y, h, a, Apply(h, a, c)), Apply(h, a, c), e)
  {
    if e in h.dir.doc.entries && e.ticket != a.ticket {
      assert EntryAgrees(y, h, e);
    } else {
      var was :| was in h.dir.doc.entries && was.ticket == a.ticket && e == Orphaned(was, h.now);
      assert EntryAgrees(y, h, was);
    }
  }

  /** Neither the document nor what anybody was told changes. */
  lemma OsStepAgrees(y: History, h: Host, c: Config, a: Action)
    requires Inv(h, c) && Agrees(y, h, c) && Enabled(h, a) && OsAction(a)
    ensures Agrees(y, Apply(h, a, c), c)
  {
    var next := Apply(h, a, c);
    OsStepFrame(h, c, a);
    forall e | e in next.dir.doc.entries ensures EntryAgrees(y, next, e) {
      assert EntryAgrees(y, h, e);
    }
  }

  lemma OsStepFrame(h: Host, c: Config, a: Action)
    requires OsInv(h) && Enabled(h, a) && OsAction(a)
    ensures var next := Apply(h, a, c);
      && next.dir.doc == h.dir.doc && next.registered == h.registered && next.grants == h.grants
      && (forall t :: t in h.owner ==> t in next.owner && next.owner[t] == h.owner[t])
      && next.open * h.registered <= h.open && h.now <= next.now
  {
  }

  lemma StepAgrees(y: History, h: Host, c: Config, a: Action)
    requires Inv(h, c) && Agrees(y, h, c) && 0.0 <= h.now
    ensures Agrees(Recorded(y, h, a, Step(h, a, c)), Step(h, a, c), c)
  {
    if Enabled(h, a) {
      if a.Register? {
        RegisterAgrees(y, h, c, a);
      } else if a.Poll? {
        PollAgrees(y, h, c, a);
      } else if a.Settle? {
        SettleAgrees(y, h, c, a);
      } else {
        SilentAgrees(y, h, c, a);
      }
    }
  }

  lemma SilentAgrees(y: History, h: Host, c: Config, a: Action)
    requires Inv(h, c) && Agrees(y, h, c) && Enabled(h, a) && (OsAction(a) || a.Snapshot?)
    ensures Agrees(Recorded(y, h, a, Apply(h, a, c)), Apply(h, a, c), c)
  {
    if a.Snapshot? {
      SweepAgrees(y, h, c);
    } else {
      OsStepAgrees(y, h, c, a);
    }
  }

  lemma TimeGoesOn(h: Host, a: Action, c: Config)
    ensures h.now <= Step(h, a, c).now
  {
  }

  lemma {:induction false} RunAgrees(y: History, h: Host, actions: seq<Action>, c: Config)
    requires Inv(h, c) && Agrees(y, h, c) && 0.0 <= h.now
    ensures Agrees(HistoryOf(y, h, actions, c), Run(h, actions, c), c)
    decreases |actions|
  {
    if actions != [] {
      StepAgrees(y, h, c, actions[0]);
      TimeGoesOn(h, actions[0], c);
      StepKeepsInv(h, actions[0], c);
      RunAgrees(Recorded(y, h, actions[0], Step(h, actions[0], c)), Step(h, actions[0], c), actions[1..], c);
    }
  }

  // ---- what every run guarantees ---------------------------------------------------------------------

  /** In every run an entry says what its process asked for, was told and did, and nothing else. */
  lemma EntriesSayWhatWasAsked(actions: seq<Action>, c: Config)
    ensures var y, h := HistoryOf(NoHistory, Boot, actions, c), Run(Boot, actions, c);
      && y.asked.Keys == h.registered && y.started.Keys == h.grants.Keys
      && EntriesAgree(y, h) && h.dir.doc.nextSeq == |h.registered| + 1
  {
    BootInv(c);
    RunAgrees(NoHistory, Boot, actions, c);
  }

  /** In every run a grant is at most what its process asked for, and at least its minimum or the whole host. */
  lemma GrantsFitTheDemand(actions: seq<Action>, c: Config, t: Ticket)
    requires t in Run(Boot, actions, c).grants
    ensures var y := HistoryOf(NoHistory, Boot, actions, c);
      t in y.asked && MeetsDemand(y.asked[t], Run(Boot, actions, c).grants[t], c.capacity)
  {
    BootInv(c);
    RunAgrees(NoHistory, Boot, actions, c);
  }

  /** The last thing a ticket's process did: released, was told its grant, or registered. */
  function LastSign(y: History, t: Ticket): real
    requires t in y.asked
  {
    if t in y.released then y.released[t] else if t in y.started then y.started[t] else y.asked[t].at
  }

  lemma BaseIsLastSign(y: History, h: Host, c: Config, e: Entry)
    requires Agrees(y, h, c) && e in h.dir.doc.entries
    ensures StaleBase(e) == LastSign(y, e.ticket)
  {
    assert EntryAgrees(y, h, e);
  }

  /** What keeps an entry in the ledger, by the calls and the operating system alone. */
  ghost predicate HeldAndRecent(y: History, h: Host, c: Config, t: Ticket)
    requires t in y.asked && t in h.owner
  {
    && t in Held(h)
    && ((h.owner[t] in h.alive && t !in y.released) || h.now - LastSign(y, t) < c.staleAfter)
  }

  lemma KeptIffHeldAndRecent(y: History, h: Host, c: Config, e: Entry)
    requires Inv(h, c) && Agrees(y, h, c) && e in h.dir.doc.entries
    ensures e.ticket in y.asked && e.ticket in h.owner
    ensures Keeps(h.dir.leases, ProbeOf(h, c), None, e) <==> HeldAndRecent(y, h, c, e.ticket)
  {
    BaseIsLastSign(y, h, c, e);
    assert EntryAgrees(y, h, e) && EntryInv(h, e);
    assert h.owner[e.ticket] in h.known;
  }

  /**
   In every run the next sweep keeps exactly the entries whose lease some process holds and whose own
   process is alive and has not released, or gave its last sign less than the stale bound ago.
   */
  lemma SweepKeepsIffHeldAndRecent(actions: seq<Action>, c: Config, e: Entry)
    requires e in Run(Boot, actions, c).dir.doc.entries
    ensures var y, h := HistoryOf(NoHistory, Boot, actions, c), Run(Boot, actions, c);
      && e.ticket in y.asked && e.ticket in h.owner
      && (e in Live(h, c) <==> HeldAndRecent(y, h, c, e.ticket))
  {
    var y, h := HistoryOf(NoHistory, Boot, actions, c), Run(Boot, actions, c);
    BootInv(c);
    RunKeepsInv(Boot, actions, c);
    RunAgrees(NoHistory, Boot, actions, c);
    LiveIsSound(h, c);
    KeptIffHeldAndRecent(y, h, c, e);
  }

  // ---- lease files -------------------------------------------------------------------------------------

  /** A registered ticket has a lease file exactly while it has an entry. */
  ghost predicate LeasesAreEntries(h: Host) {
    forall t :: t in h.registered ==> (t in h.dir.leases <==> t in Tickets(h.dir.doc.entries))
  }

  lemma SweepLeasesEntries(h: Host, c: Config)
    requires Inv(h, c) && LeasesAreEntries(h)
    ensures LeasesAreEntries(SweptHost(h, c, None))
  {
    var leases, probe, entries := h.dir.leases, ProbeOf(h, c), h.dir.doc.entries;
    SelectDisjoint(leases, probe, None, entries);
    SelectContents(leases, probe, None, entries, true);
    SelectContents(leases, probe, None, entries, false);
    var next := SweptHost(h, c, None);
    forall t | t in next.registered ensures t in next.dir.leases <==> t in Tickets(next.dir.doc.entries) {
      if t in Tickets(entries) {
        var e :| e in entries && e.ticket == t;
        assert e in Select(leases, probe, None, entries, true) || e in Select(leases, probe, None, entries, false);
      }
    }
  }

  lemma AppendLeasesEntry(h: Host, entry: Entry)
    requires LeasesAreEntries(h) && entry.ticket in h.dir.leases
    ensures LeasesAreEntries(Appended(h, entry))
  {
    TicketsAfterAppend(h.dir.doc.entries, entry);
  }

  lemma RegisterLeasesEntry(h: Host, c: Config, a: Action)
    requires Inv(h, c) && LeasesAreEntries(h) && a.Register? && Enabled(h, a)
    ensures LeasesAreEntries(Apply(h, a, c))
  {
    var swept := SweptHost(h, c, None);
    SweepLeasesEntries(h, c);
    SweptFrame(h, c, None);
    SweepKeepsInv(h, c, None);
    RegisterIsAppend(h, c, a);
    assert swept.owner[a.ticket] in swept.holders[a.ticket];
    AppendLeasesEntry(swept, EntryToRegister(h, c, a));
  }

  lemma PollLeasesEntries(h: Host, c: Config, a: Action)
    requires Inv(h, c) && LeasesAreEntries(h) && a.Poll? && Enabled(h, a)
    ensures LeasesAreEntries(Apply(h, a, c))
  {
    SweepLeasesEntries(h, c);
    SweptFrame(h, c, None);
    SweepKeepsInv(h, c, None);
    PollWrites(h, c, a.ticket);
    if Plan(c.capacity, Live(h, c), a.ticket).Some? {
      AdmitKeepsInv(SweptHost(h, c, None), c, a.ticket);
    }
  }

  lemma SettleLeasesEntries(h: Host, c: Config, a: Action)
    requires Inv(h, c) && LeasesAreEntries(h) && a.Settle? && Enabled(h, a)
    ensures LeasesAreEntries(Apply(h, a, c))
  {
    if Registered(h.dir.doc.entries, a.ticket) {
      SettledTickets(h, c, a.ticket);
    }
  }

  lemma StepLeasesEntries(h: Host, c: Config, a: Action)
    requires Inv(h, c) && LeasesAreEntries(h)
    ensures LeasesAreEntries(Step(h, a, c))
  {
    if Enabled(h, a) {
      if a.Register? {
        RegisterLeasesEntry(h, c, a);
      } else if a.Poll? {
        PollLeasesEntries(h, c, a);
      } else if a.Settle? {
        SettleLeasesEntries(h, c, a);
      } else if a.Snapshot? {
        SweepLeasesEntries(h, c);
      }
    }
  }

  lemma {:induction false} RunLeasesEntries(h: Host, actions: seq<Action>, c: Config)
    requires Inv(h, c) && LeasesAreEntries(h)
    ensures LeasesAreEntries(Run(h, actions, c))
    decreases |actions|
  {
    if actions != [] {
      StepLeasesEntries(h, c, actions[0]);
      StepKeepsInv(h, actions[0], c);
      RunLeasesEntries(Step(h, actions[0], c), actions[1..], c);
    }
  }

  /** In every run a registered ticket's lease file is on disk exactly while the ledger has its entry. */
  lemma LeaseFilesAreTheEntries(actions: seq<Action>, c: Config, t: Ticket)
    requires t in Run(Boot, actions, c).registered
    ensures var h := Run(Boot, actions, c);
      t in h.dir.leases <==> t in Tickets(h.dir.doc.entries)
  {
    BootInv(c);
    RunLeasesEntries(Boot, actions, c);
  }
}
