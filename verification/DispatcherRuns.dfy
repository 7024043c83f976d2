/**
 Every run of any number of dispatcher processes over one state directory. Each locked operation
 is one atomic step; between steps processes fork, close descriptors, die, and time passes.
 */
module DispatcherRuns {
  import opened Wrappers
  import opened Records
  import opened Admission
  import opened Ledger

  type Process = Supervisor

  datatype Config = Config(capacity: int, staleAfter: real)

  /**
   The directory and the operating system, with three histories: `owner` and `registered` say
   which process opened and registered a ticket, `grants` what it was told, and `reclaimed` which
   tickets lost their entry while some process still held their lease.
   */
  datatype Host = Host(
    dir: Dir, holders: map<Ticket, set<Process>>, alive: set<Process>, known: set<Process>, now: real,
    owner: map<Ticket, Process>, registered: set<Ticket>, open: set<Ticket>,
    grants: map<Ticket, int>, reclaimed: set<Ticket>)

  datatype Action =
    | Spawn(process: Process)
    | OpenLease(process: Process, ticket: Ticket)
    | Register(ticket: Ticket, profile: string, requested: int, minimum: int)
    | Poll(ticket: Ticket)
    | Fork(parent: Process, child: Process, ticket: Ticket)
    | Die(process: Process)
    | CloseInherited(process: Process, ticket: Ticket)
    | CloseOwn(ticket: Ticket)
    | Settle(ticket: Ticket)
    | Snapshot
    | Tick(elapsed: real)

  const Boot := Host(Dir(FreshDoc, {}), map[], {}, {}, 0.0, map[], {}, {}, map[], {})

  function Held(h: Host): set<Ticket> {
    set t | t in h.holders && h.holders[t] != {}
  }

  function ProbeOf(h: Host, c: Config): Probe {
    Probe(Held(h), h.alive, h.now, c.staleAfter)
  }

  /** Replace the directory, recording which tickets lost their entry while their lease is held. */
  function WithDir(h: Host, dir: Dir): Host {
    var lost := (Tickets(h.dir.doc.entries) - Tickets(dir.doc.entries)) * Held(h);
    h.(dir := dir, reclaimed := h.reclaimed + lost)
  }

  /** A process still waiting on, or running under, a ticket it registered. */
  predicate LiveOwner(h: Host, ticket: Ticket) {
    ticket in h.registered && ticket in h.open && ticket in h.owner && h.owner[ticket] in h.alive
  }

  predicate Enabled(h: Host, a: Action) {
    match a
    case Spawn(p) => p !in h.known && p.pid > 0
    case OpenLease(p, t) => p in h.alive && t !in h.owner && ValidTicket(t)
    case Register(t, profile, requested, minimum) =>
      t in h.open && t !in h.registered && t in h.owner && h.owner[t] in h.alive
      && ValidProfile(profile) && ValidDemand(requested, minimum)
    case Poll(t) => LiveOwner(h, t)
    case Fork(p, child, t) => t in h.holders && p in h.holders[t] && child !in h.known && child.pid > 0
    case Die(p) => p in h.alive
    case CloseInherited(p, t) => t in h.holders && p in h.holders[t] && t in h.owner && p != h.owner[t]
    case CloseOwn(t) => t in h.open && t in h.owner && h.owner[t] in h.alive
    case Settle(t) => t in h.registered && t !in h.open && t in h.owner && h.owner[t] in h.alive
    case Snapshot => true
    case Tick(elapsed) => elapsed >= 0.0
  }

  function Drop(holders: map<Ticket, set<Process>>, p: Process): map<Ticket, set<Process>> {
    map t | t in holders :: holders[t] - {p}
  }

  ghost function Apply(h: Host, a: Action, c: Config): Host
    requires Enabled(h, a)
  {
    match a
    case Spawn(p) => h.(alive := h.alive + {p}, known := h.known + {p})
    case OpenLease(p, t) =>
      h.(dir := h.dir.(leases := h.dir.leases + {t}), holders := h.holders[t := {p}],
         owner := h.owner[t := p], open := h.open + {t})
    case Register(t, profile, requested, minimum) =>
      var entry := NewEntry(t, 0, profile, requested, minimum, h.now, h.owner[t]);
      WithDir(h, Enqueued(h.dir, ProbeOf(h, c), entry)).(registered := h.registered + {t})
    case Poll(t) =>
      var (dir, answer) := Admitted(h.dir, ProbeOf(h, c), t, c.capacity);
      var next := WithDir(h, dir);
      if answer.Ok? && answer.value.Some? then next.(grants := h.grants[t := answer.value.value]) else next
    case Fork(p, child, t) =>
      h.(alive := h.alive + {child}, known := h.known + {child}, holders := h.holders[t := h.holders[t] + {child}])
    case Die(p) => h.(alive := h.alive - {p}, holders := Drop(h.holders, p))
    case CloseInherited(p, t) => h.(holders := h.holders[t := h.holders[t] - {p}])
    case CloseOwn(t) =>
      h.(open := h.open - {t},
         holders := if t in h.holders then h.holders[t := h.holders[t] - {h.owner[t]}] else h.holders)
    case Settle(t) => WithDir(h, Settled(h.dir, ProbeOf(h, c), t))
    case Snapshot => WithDir(h, Observed(h.dir, ProbeOf(h, c)))
    case Tick(elapsed) => h.(now := h.now + elapsed)
  }

  /** One step of the host; an action that cannot happen now leaves it as it is. */
  ghost function Step(h: Host, a: Action, c: Config): Host {
    if Enabled(h, a) then Apply(h, a, c) else h
  }

  ghost function Run(h: Host, actions: seq<Action>, c: Config): Host
    decreases |actions|
  {
    if actions == [] then h else Run(Step(h, actions[0], c), actions[1..], c)
  }

  // ---- the invariant ---------------------------------------------------------

  /** An issued sequence number, and a grant between the clamped minimum and the clamped request. */
  predicate Scheduled(e: Entry, nextSeq: int, c: Config) {
    var cap := Max(1, c.capacity);
    && e.seqNo < nextSeq
    && (e.state == Running && e.granted.Some? ==>
          Effective(e.minimum, cap) <= e.granted.value <= Effective(e.requested, cap))
  }

  ghost predicate DocInv(doc: Doc, c: Config) {
    && ValidLedger(doc)
    && Increasing(doc.entries)
    && (forall e :: e in doc.entries ==> Scheduled(e, doc.nextSeq, c))
    && Used(doc.entries) <= Max(1, c.capacity)
  }

  ghost predicate OsInv(h: Host) {
    && h.holders.Keys == h.owner.Keys
    && h.open <= h.owner.Keys && h.registered <= h.owner.Keys && h.grants.Keys <= h.registered
    && h.reclaimed <= h.registered
    && h.alive <= h.known
    && (forall p :: p in h.known ==> p.pid > 0)
    && (forall t :: t in h.owner ==> ValidTicket(t) && h.owner[t] in h.known && h.holders[t] <= h.alive)
    && (forall t :: t in h.open && h.owner[t] in h.alive ==> h.owner[t] in h.holders[t])
  }

  /** What one entry says agrees with the histories. */
  ghost predicate EntryInv(h: Host, e: Entry) {
    && e.ticket in h.registered && e.ticket in h.owner && e.ticket !in h.reclaimed
    && (e.supervisor.Some? ==> e.supervisor.value == h.owner[e.ticket])
    && (e.ticket in h.open ==> e.supervisor.Some?)
    && (e.state == Running <==> e.ticket in h.grants)
    && (e.state == Running ==> e.granted == Some(h.grants[e.ticket]))
  }

  /** A held lease keeps its file and, once registered, its entry, unless it was reclaimed. */
  ghost predicate LeaseInv(h: Host) {
    && (forall t :: t in h.holders && h.holders[t] != {} && t !in h.reclaimed ==> t in h.dir.leases)
    && (forall t :: t in h.registered && t in h.holders && h.holders[t] != {} && t !in h.reclaimed
          ==> t in Tickets(h.dir.doc.entries))
    && (forall t :: LiveOwner(h, t) ==> t !in h.reclaimed)
  }

  ghost predicate Inv(h: Host, c: Config) {
    && DocInv(h.dir.doc, c)
    && OsInv(h)
    && EntriesInv(h)
    && LeaseInv(h)
  }

  // ---- sweeping ----------------------------------------------------------------

  ghost function SweptHost(h: Host, c: Config, protect: Option<Ticket>): Host {
    WithDir(h, Swept(h.dir, ProbeOf(h, c), protect))
  }

  /** Only an entry without a live supervisor and past the stale bound goes while its lease is held. */
  lemma SweepReclaimsOnlyStale(h: Host, c: Config, protect: Option<Ticket>, t: Ticket)
    requires Inv(h, c) && t in SweptHost(h, c, protect).reclaimed && t !in h.reclaimed
    ensures exists e :: e in h.dir.doc.entries && e.ticket == t && Stale(ProbeOf(h, c), e)
    ensures !LiveOwner(h, t)
  {
    var probe := ProbeOf(h, c);
    SelectContents(h.dir.leases, probe, protect, h.dir.doc.entries, true);
    var e :| e in h.dir.doc.entries && e.ticket == t;
    assert !Keeps(h.dir.leases, probe, protect, e);
    assert EntryInv(h, e);
  }

  lemma SweepReclaimed(h: Host, c: Config, protect: Option<Ticket>)
    requires Inv(h, c)
    ensures forall t :: t in SweptHost(h, c, protect).reclaimed ==> t in h.registered && !LiveOwner(h, t)
  {
    forall t | t in SweptHost(h, c, protect).reclaimed
      ensures t in h.registered && !LiveOwner(h, t)
    {
      if t !in h.reclaimed {
        SweepReclaimsOnlyStale(h, c, protect, t);
        var e :| e in h.dir.doc.entries && e.ticket == t;
        assert EntryInv(h, e);
      }
    }
  }

  lemma SweepDoc(h: Host, c: Config, protect: Option<Ticket>)
    requires DocInv(h.dir.doc, c)
    ensures DocInv(SweptHost(h, c, protect).dir.doc, c)
  {
    var leases, probe, entries := h.dir.leases, ProbeOf(h, c), h.dir.doc.entries;
    SelectContents(leases, probe, protect, entries, true);
    KeptOrder(leases, probe, protect, entries);
    assert forall e :: e in entries ==> ValidEntry(e);
    KeptUses(leases, probe, protect, entries);
  }

  lemma SweepEntries(h: Host, c: Config, protect: Option<Ticket>)
    requires Inv(h, c)
    ensures forall e :: e in SweptHost(h, c, protect).dir.doc.entries ==> EntryInv(SweptHost(h, c, protect), e)
  {
    SelectContents(h.dir.leases, ProbeOf(h, c), protect, h.dir.doc.entries, true);
    var next := SweptHost(h, c, protect);
    forall e | e in next.dir.doc.entries ensures EntryInv(next, e) {
      assert EntryInv(h, e);
      assert e.ticket in Tickets(next.dir.doc.entries);
    }
  }

  lemma SweepLeases(h: Host, c: Config, protect: Option<Ticket>)
    requires Inv(h, c)
    ensures LeaseInv(SweptHost(h, c, protect))
  {
    var leases, probe, entries := h.dir.leases, ProbeOf(h, c), h.dir.doc.entries;
    var next := SweptHost(h, c, protect);
    var kept := next.dir.doc.entries;
    SweepReclaimed(h, c, protect);
    SelectDisjoint(leases, probe, protect, entries);
    SelectContents(leases, probe, protect, entries, false);
    forall t | t in h.holders && h.holders[t] != {} && t !in next.reclaimed
      ensures t in next.dir.leases
      ensures t in h.registered ==> t in Tickets(kept)
    {
      if t in Tickets(entries) {
        assert t in Tickets(kept);
      }
    }
  }

  lemma SweepKeepsInv(h: Host, c: Config, protect: Option<Ticket>)
    requires Inv(h, c)
    ensures Inv(SweptHost(h, c, protect), c)
  {
    SweepDoc(h, c, protect);
    SweepReclaimed(h, c, protect);
    SweepEntries(h, c, protect);
    SweepLeases(h, c, protect);
  }

  /** A sweep keeps every live owner's entry. */
  lemma SweepKeepsLive(h: Host, c: Config, protect: Option<Ticket>)
    requires Inv(h, c)
    ensures forall t :: LiveOwner(h, t) ==> t in Tickets(SweptHost(h, c, protect).dir.doc.entries)
  {
    SweepReclaimed(h, c, protect);
    SweepLeases(h, c, protect);
    var next := SweptHost(h, c, protect);
    forall t | LiveOwner(h, t) ensures t in Tickets(next.dir.doc.entries) {
      assert h.owner[t] in next.holders[t];
    }
  }

  // ---- the four edits of a document ---------------------------------------------

  lemma AppendKeepsDoc(doc: Doc, entry: Entry, c: Config)
    requires DocInv(doc, c) && ValidEntry(entry) && entry.seqNo == doc.nextSeq && entry.state == Queued
    requires entry.ticket !in Tickets(doc.entries)
    ensures DocInv(Doc(doc.nextSeq + 1, doc.entries + [entry]), c)
    ensures Tickets(doc.entries + [entry]) == Tickets(doc.entries) + {entry.ticket}
  {
    var after := doc.entries + [entry];
    UsedConcat(doc.entries, [entry]);
    assert [entry][1..] == [];
    forall i | 0 <= i < |doc.entries|
      ensures after[i].ticket != entry.ticket && after[i].seqNo < entry.seqNo
    {
      assert Scheduled(after[i], doc.nextSeq, c);
    }
  }

  lemma TicketsByIndex(a: seq<Entry>, b: seq<Entry>)
    requires |a| == |b| && forall i :: 0 <= i < |a| ==> a[i].ticket == b[i].ticket
    ensures Tickets(a) == Tickets(b)
  {
    forall t ensures t in Tickets(a) <==> t in Tickets(b) {
      if t in Tickets(a) {
        var i :| 0 <= i < |a| && a[i].ticket == t;
        assert b[i] in b;
      }
      if t in Tickets(b) {
        var i :| 0 <= i < |b| && b[i].ticket == t;
        assert a[i] in a;
      }
    }
  }

  /** Updating one entry in place, keeping its identity and its validity. */
  lemma UpdateKeepsDoc(doc: Doc, k: nat, entry: Entry, c: Config)
    requires DocInv(doc, c) && k < |doc.entries| && ValidEntry(entry)
    requires entry.ticket == doc.entries[k].ticket && entry.seqNo == doc.entries[k].seqNo
    requires Used(doc.entries[k := entry]) <= Max(1, c.capacity) && Scheduled(entry, doc.nextSeq, c)
    ensures DocInv(doc.(entries := doc.entries[k := entry]), c)
    ensures Tickets(doc.entries[k := entry]) == Tickets(doc.entries)
  {
    var after := doc.entries[k := entry];
    TicketsByIndex(after, doc.entries);
    forall e | e in after ensures Scheduled(e, doc.nextSeq, c) {
      var i :| 0 <= i < |after| && after[i] == e;
      assert doc.entries[i] in doc.entries;
    }
  }

  lemma AdmitKeepsDoc(doc: Doc, t: Ticket, now: real, c: Config) returns (k: nat)
    requires DocInv(doc, c) && Plan(c.capacity, doc.entries, t).Some?
    ensures k < |doc.entries| && doc.entries[k].ticket == t && doc.entries[k].state == Queued
    ensures var grant := Plan(c.capacity, doc.entries, t).value;
      var after := Admit(doc.entries, t, grant, now);
      && after == doc.entries[k := doc.entries[k].(state := Running, granted := Some(grant), startedAt := Some(now))]
      && DocInv(doc.(entries := after), c)
      && Tickets(after) == Tickets(doc.entries)
  {
    k := PlanIsQueued(c.capacity, doc.entries, t);
    var grant := Plan(c.capacity, doc.entries, t).value;
    AdmitUses(doc.entries, t, grant, now, k);
    assert ValidEntry(doc.entries[k]);
    var entry := doc.entries[k].(state := Running, granted := Some(grant), startedAt := Some(now));
    assert doc.entries[k] in doc.entries && Scheduled(doc.entries[k], doc.nextSeq, c);
    assert Scheduled(entry, doc.nextSeq, c);
    UpdateKeepsDoc(doc, k, entry, c);
  }

  lemma {:induction false} WithoutShape(entries: seq<Entry>, t: Ticket)
    requires DistinctTickets(entries) && Increasing(entries)
    ensures DistinctTickets(Without(entries, t)) && Increasing(Without(entries, t))
  {
    if entries != [] {
      var rest := Without(entries[1..], t);
      WithoutShape(entries[1..], t);
      WithoutContents(entries[1..], t);
      forall i | 0 <= i < |rest|
        ensures rest[i].ticket != entries[0].ticket && entries[0].seqNo < rest[i].seqNo
      {
        assert rest[i] in entries[1..];
      }
    }
  }

  lemma {:induction false} WithoutUses(entries: seq<Entry>, t: Ticket)
    requires forall e :: e in entries ==> GrantOf(e) >= 0
    ensures 0 <= Used(Without(entries, t)) <= Used(entries)
  {
    if entries != [] {
      WithoutUses(entries[1..], t);
      var rest := Without(entries[1..], t);
      assert ([entries[0]] + rest)[1..] == rest;
    }
  }

  lemma WithoutKeepsDoc(doc: Doc, t: Ticket, c: Config)
    requires DocInv(doc, c)
    ensures DocInv(doc.(entries := Without(doc.entries, t)), c)
    ensures Tickets(Without(doc.entries, t)) == Tickets(doc.entries) - {t}
  {
    var after := Without(doc.entries, t);
    WithoutShape(doc.entries, t);
    WithoutContents(doc.entries, t);
    assert forall e :: e in doc.entries ==> ValidEntry(e);
    WithoutUses(doc.entries, t);
    WithoutTickets(doc.entries, t);
  }

  lemma WithoutTickets(entries: seq<Entry>, t: Ticket)
    ensures Tickets(Without(entries, t)) == Tickets(entries) - {t}
  {
    WithoutContents(entries, t);
  }

  lemma {:induction false} OrphanShape(entries: seq<Entry>, t: Ticket, now: real, k: nat)
    requires DistinctTickets(entries) && k < |entries| && entries[k].ticket == t
    ensures Orphan(entries, t, now) == entries[k := entries[k].(supervisor := None, orphanedAt := Some(now))]
    ensures Used(Orphan(entries, t, now)) == Used(entries)
  {
    var orphaned := Orphan(entries, t, now);
    if k == 0 {
      assert orphaned[1..] == entries[1..];
    } else {
      OrphanShape(entries[1..], t, now, k - 1);
      assert orphaned[1..] == Orphan(entries[1..], t, now);
    }
  }

  // ---- each step keeps the invariant ---------------------------------------------

  ghost predicate EntriesInv(h: Host) {
    forall e :: e in h.dir.doc.entries ==> EntryInv(h, e)
  }

  /** A directory edit that loses no held ticket, followed by the history it calls for. */
  lemma EditKeepsInv(h: Host, next: Host, c: Config)
    requires Inv(h, c)
    requires next == h.(dir := next.dir, registered := next.registered, grants := next.grants)
    requires h.registered <= next.registered <= h.owner.Keys && h.grants.Keys <= next.grants.Keys <= next.registered
    requires DocInv(next.dir.doc, c) && EntriesInv(next)
    requires forall t :: (t in next.registered && h.holders[t] != {} && t !in h.reclaimed
      ==> t in Tickets(next.dir.doc.entries))
    requires forall t :: t in h.dir.leases && t in h.holders && h.holders[t] != {} ==> t in next.dir.leases
    requires forall t :: t in next.registered && t !in h.registered ==> t !in h.reclaimed
    ensures Inv(next, c)
  {
    forall t | LiveOwner(next, t) ensures t !in next.reclaimed {
      assert t in h.registered ==> LiveOwner(h, t);
    }
  }

  /** A sweep changes the directory and the reclaimed tickets, and issues no number. */
  lemma SweptFrame(h: Host, c: Config, protect: Option<Ticket>)
    ensures var swept := SweptHost(h, c, protect);
      swept == h.(dir := swept.dir, reclaimed := swept.reclaimed) && swept.dir.doc.nextSeq == h.dir.doc.nextSeq
  {
  }

  lemma RegisterKeepsInv(h: Host, c: Config, a: Action)
    requires Inv(h, c) && a.Register? && Enabled(h, a)
    ensures Inv(Apply(h, a, c), c)
  {
    var swept := SweptHost(h, c, None);
    SweptFrame(h, c, None);
    SweepKeepsInv(h, c, None);
    NotYetRegistered(h, c, a.ticket);
    RegisterIsAppend(h, c, a);
    AppendKeepsInv(swept, c, EntryToRegister(h, c, a));
    assert Apply(h, a, c) == Appended(swept, EntryToRegister(h, c, a));
  }

  ghost function Appended(h: Host, entry: Entry): Host {
    h.(dir := h.dir.(doc := Doc(h.dir.doc.nextSeq + 1, h.dir.doc.entries + [entry])),
       registered := h.registered + {entry.ticket})
  }

  /** The entry a registration appends. */
  ghost function EntryToRegister(h: Host, c: Config, a: Action): (e: Entry)
    requires Inv(h, c) && a.Register? && Enabled(h, a)
    ensures ValidEntry(e) && e.ticket == a.ticket && e.state == Queued && e.supervisor == Some(h.owner[a.ticket])
    ensures e.seqNo == h.dir.doc.nextSeq && e.ticket in h.owner
  {
    NewEntry(a.ticket, h.dir.doc.nextSeq, a.profile, a.requested, a.minimum, h.now, h.owner[a.ticket])
  }

  lemma AppendKeepsInv(h: Host, c: Config, entry: Entry)
    requires Inv(h, c) && ValidEntry(entry) && entry.seqNo == h.dir.doc.nextSeq && entry.state == Queued
    requires entry.ticket in h.owner && entry.ticket !in h.registered && entry.supervisor == Some(h.owner[entry.ticket])
    requires entry.ticket !in Tickets(h.dir.doc.entries)
    ensures Inv(Appended(h, entry), c)
  {
    var next := Appended(h, entry);
    AppendKeepsDoc(h.dir.doc, entry, c);
    RegisterEntries(h, next, entry);
    EditKeepsInv(h, next, c);
  }

  lemma RegisterEntries(h: Host, next: Host, entry: Entry)
    requires OsInv(h) && EntriesInv(h)
    requires next == h.(dir := next.dir, registered := h.registered + {entry.ticket})
    requires next.dir.doc.entries == h.dir.doc.entries + [entry]
    requires entry.state == Queued && entry.ticket in h.owner && entry.ticket !in h.registered
    requires entry.supervisor == Some(h.owner[entry.ticket])
    ensures EntriesInv(next)
  {
    forall e | e in next.dir.doc.entries ensures EntryInv(next, e) {
      if e in h.dir.doc.entries { assert EntryInv(h, e); }
    }
  }

  lemma NewTicketLosesNothing(h: Host, a: Dir, b: Dir, t: Ticket)
    requires Tickets(b.doc.entries) == Tickets(a.doc.entries) + {t} && t !in Tickets(h.dir.doc.entries)
    ensures WithDir(h, b) == WithDir(h, a).(dir := b)
  {
    assert Tickets(h.dir.doc.entries) - Tickets(b.doc.entries) == Tickets(h.dir.doc.entries) - Tickets(a.doc.entries);
  }

  lemma TicketsAfterAppend(entries: seq<Entry>, entry: Entry)
    ensures Tickets(entries + [entry]) == Tickets(entries) + {entry.ticket}
  {
  }

  /** Registering is a sweep, then one entry appended with the next sequence number. */
  lemma RegisterIsAppend(h: Host, c: Config, a: Action)
    requires Inv(h, c) && a.Register? && Enabled(h, a)
    ensures Apply(h, a, c) == Appended(SweptHost(h, c, None), EntryToRegister(h, c, a))
  {
    assert h.owner[a.ticket] in h.holders[a.ticket];
    assert h.dir.leases + {a.ticket} == h.dir.leases;
    NotYetRegistered(h, c, a.ticket);
    var swept := SweptHost(h, c, None);
    var entry := EntryToRegister(h, c, a);
    var dir := swept.dir.(doc := Doc(swept.dir.doc.nextSeq + 1, swept.dir.doc.entries + [entry]));
    assert Enqueued(h.dir, ProbeOf(h, c),
                    NewEntry(a.ticket, 0, a.profile, a.requested, a.minimum, h.now, h.owner[a.ticket])) == dir;
    TicketsAfterAppend(swept.dir.doc.entries, entry);
    NewTicketLosesNothing(h, swept.dir, dir, a.ticket);
  }

  lemma NotYetRegistered(h: Host, c: Config, t: Ticket)
    requires Inv(h, c) && t !in h.registered
    ensures t !in Tickets(h.dir.doc.entries) && t !in Tickets(SweptHost(h, c, None).dir.doc.entries)
  {
    SelectContents(h.dir.leases, ProbeOf(h, c), None, h.dir.doc.entries, true);
    assert forall e :: e in h.dir.doc.entries ==> EntryInv(h, e);
  }

  lemma PollKeepsInv(h: Host, c: Config, a: Action)
    requires Inv(h, c) && a.Poll? && Enabled(h, a)
    ensures Inv(Apply(h, a, c), c)
  {
    SweepKeepsInv(h, c, Some(a.ticket));
    PollFindsTicket(h, c, a.ticket);
    var swept := SweptHost(h, c, Some(a.ticket));
    if Plan(c.capacity, swept.dir.doc.entries, a.ticket).Some? {
      AdmitKeepsInv(swept, c, a.ticket);
      PollIsAdmit(h, c, a.ticket);
    }
  }

  ghost function AdmittedHost(h: Host, c: Config, t: Ticket): Host
    requires Plan(c.capacity, h.dir.doc.entries, t).Some?
  {
    var grant := Plan(c.capacity, h.dir.doc.entries, t).value;
    var after := Admit(h.dir.doc.entries, t, grant, h.now);
    h.(dir := h.dir.(doc := h.dir.doc.(entries := after)), grants := h.grants[t := grant])
  }

  lemma AdmitKeepsInv(h: Host, c: Config, t: Ticket)
    requires Inv(h, c) && Plan(c.capacity, h.dir.doc.entries, t).Some?
    ensures Inv(AdmittedHost(h, c, t), c)
    ensures Tickets(AdmittedHost(h, c, t).dir.doc.entries) == Tickets(h.dir.doc.entries)
  {
    var k := AdmitKeepsDoc(h.dir.doc, t, h.now, c);
    var next := AdmittedHost(h, c, t);
    assert EntryInv(h, h.dir.doc.entries[k]);
    AdmitEntries(h, next, k, Plan(c.capacity, h.dir.doc.entries, t).value);
    EditKeepsInv(h, next, c);
  }

  lemma AdmitEntries(h: Host, next: Host, k: nat, grant: int)
    requires OsInv(h) && EntriesInv(h) && DistinctTickets(h.dir.doc.entries) && k < |h.dir.doc.entries|
    requires next == h.(dir := next.dir, grants := h.grants[h.dir.doc.entries[k].ticket := grant])
    requires |next.dir.doc.entries| == |h.dir.doc.entries|
    requires next.dir.doc.entries == h.dir.doc.entries[k := next.dir.doc.entries[k]]
    requires var e, was := next.dir.doc.entries[k], h.dir.doc.entries[k];
      e == was.(state := Running, granted := Some(grant), startedAt := e.startedAt)
    ensures EntriesInv(next)
  {
    var before, after := h.dir.doc.entries, next.dir.doc.entries;
    forall e | e in after ensures EntryInv(next, e) {
      var i :| 0 <= i < |after| && after[i] == e;
      assert EntryInv(h, before[i]);
    }
  }

  /** A successful poll is a sweep, then the grant written into the ticket's own entry. */
  lemma PollIsAdmit(h: Host, c: Config, t: Ticket)
    requires Inv(h, c) && LiveOwner(h, t)
    requires Plan(c.capacity, SweptHost(h, c, Some(t)).dir.doc.entries, t).Some?
    ensures Apply(h, Action.Poll(t), c) == AdmittedHost(SweptHost(h, c, Some(t)), c, t)
  {
    PollFindsTicket(h, c, t);
    SweepDoc(h, c, Some(t));
    var swept := SweptHost(h, c, Some(t));
    var k := AdmitKeepsDoc(swept.dir.doc, t, h.now, c);
    SameTicketsLoseTheSame(h, swept.dir, AdmittedHost(swept, c, t).dir);
  }

  lemma SameTicketsLoseTheSame(h: Host, a: Dir, b: Dir)
    requires Tickets(a.doc.entries) == Tickets(b.doc.entries)
    ensures WithDir(h, b) == WithDir(h, a).(dir := b)
  {
  }

  /** A live waiter never finds its ticket missing. */
  lemma PollFindsTicket(h: Host, c: Config, t: Ticket)
    requires Inv(h, c) && LiveOwner(h, t)
    ensures Registered(SweptHost(h, c, Some(t)).dir.doc.entries, t)
    ensures Admitted(h.dir, ProbeOf(h, c), t, c.capacity).1.Ok?
  {
    SweepKeepsLive(h, c, Some(t));
    var entries := SweptHost(h, c, Some(t)).dir.doc.entries;
    var e :| e in entries && e.ticket == t;
    var k :| 0 <= k < |entries| && entries[k] == e;
  }

  lemma SettleKeepsInv(h: Host, c: Config, a: Action)
    requires Inv(h, c) && a.Settle? && Enabled(h, a)
    ensures Inv(Apply(h, a, c), c)
  {
    var t := a.ticket;
    var doc, probe := h.dir.doc, ProbeOf(h, c);
    if Registered(doc.entries, t) {
      var k :| 0 <= k < |doc.entries| && doc.entries[k].ticket == t;
      assert EntryInv(h, doc.entries[k]);
      if LeaseUnheld(h.dir.leases, probe, t) {
        SettleRemoves(h, c, a);
      } else {
        SettleOrphans(h, c, a, k);
      }
    } else {
      SettleNothing(h, c, a);
    }
  }

  lemma SettleNothing(h: Host, c: Config, a: Action)
    requires a.Settle? && Enabled(h, a) && !Registered(h.dir.doc.entries, a.ticket)
    ensures Apply(h, a, c) == h
  {
    NothingLost(h, h.dir);
  }

  /** A directory edit that drops no held ticket reclaims nothing. */
  lemma NothingLost(h: Host, dir: Dir)
    requires Tickets(h.dir.doc.entries) * Held(h) <= Tickets(dir.doc.entries)
    ensures WithDir(h, dir) == h.(dir := dir)
  {
    assert (Tickets(h.dir.doc.entries) - Tickets(dir.doc.entries)) * Held(h) == {};
  }

  lemma SettleRemoves(h: Host, c: Config, a: Action)
    requires Inv(h, c) && a.Settle? && Enabled(h, a)
    requires Registered(h.dir.doc.entries, a.ticket) && LeaseUnheld(h.dir.leases, ProbeOf(h, c), a.ticket)
    requires a.ticket !in h.reclaimed
    ensures Inv(Apply(h, a, c), c)
  {
    var t, doc := a.ticket, h.dir.doc;
    WithoutKeepsDoc(doc, t, c);
    WithoutContents(doc.entries, t);
    assert t !in Held(h);
    var dir := Dir(doc.(entries := Without(doc.entries, t)), h.dir.leases - {t});
    assert dir == Settled(h.dir, ProbeOf(h, c), t);
    NothingLost(h, dir);
    FewerEntries(h, h.(dir := dir));
    EditKeepsInv(h, h.(dir := dir), c);
  }

  lemma FewerEntries(h: Host, next: Host)
    requires EntriesInv(h) && next == h.(dir := next.dir)
    requires forall e :: e in next.dir.doc.entries ==> e in h.dir.doc.entries
    ensures EntriesInv(next)
  {
    forall e | e in next.dir.doc.entries ensures EntryInv(next, e) {
      assert EntryInv(h, e);
    }
  }

  lemma SettleOrphans(h: Host, c: Config, a: Action, k: nat)
    requires Inv(h, c) && a.Settle? && Enabled(h, a)
    requires k < |h.dir.doc.entries| && h.dir.doc.entries[k].ticket == a.ticket
    requires !LeaseUnheld(h.dir.leases, ProbeOf(h, c), a.ticket)
    ensures Inv(Apply(h, a, c), c)
  {
    var t, doc := a.ticket, h.dir.doc;
    OrphanShape(doc.entries, t, h.now, k);
    var after := Orphan(doc.entries, t, h.now);
    OrphanIsValid(doc.entries[k], after[k]);
    assert doc.entries[k] in doc.entries && Scheduled(doc.entries[k], doc.nextSeq, c);
    assert Scheduled(after[k], doc.nextSeq, c);
    UpdateKeepsDoc(doc, k, after[k], c);
    var dir := h.dir.(doc := doc.(entries := after));
    assert dir == Settled(h.dir, ProbeOf(h, c), t);
    NothingLost(h, dir);
    OrphanEntries(h, h.(dir := dir), k, after[k]);
    EditKeepsInv(h, h.(dir := dir), c);
  }

  lemma OrphanIsValid(e: Entry, orphan: Entry)
    requires ValidEntry(e) && orphan == e.(supervisor := None, orphanedAt := orphan.orphanedAt)
    ensures ValidEntry(orphan)
  {
  }

  lemma OrphanEntries(h: Host, next: Host, k: nat, orphan: Entry)
    requires EntriesInv(h) && next == h.(dir := next.dir)
    requires k < |h.dir.doc.entries| && next.dir.doc.entries == h.dir.doc.entries[k := orphan]
    requires orphan == h.dir.doc.entries[k].(supervisor := None, orphanedAt := orphan.orphanedAt)
    requires orphan.ticket !in h.open
    ensures EntriesInv(next)
  {
    forall e | e in next.dir.doc.entries ensures EntryInv(next, e) {
      var i :| 0 <= i < |next.dir.doc.entries| && next.dir.doc.entries[i] == e;
      assert EntryInv(h, h.dir.doc.entries[i]);
    }
  }

  /** Forking, dying, closing, opening a lease and the clock do not touch the document. */
  lemma OsStepKeepsInv(h: Host, c: Config, a: Action)
    requires Inv(h, c) && Enabled(h, a)
    requires !a.Register? && !a.Poll? && !a.Settle? && !a.Snapshot?
    ensures Inv(Apply(h, a, c), c)
  {
    var next := Apply(h, a, c);
    assert next.dir.doc == h.dir.doc;
    OsStepOs(h, c, a);
    OsStepEntries(h, c, a);
    OsStepLeases(h, c, a);
  }

  /** Changing who holds what, with nobody dead holding anything and no open lease abandoned. */
  lemma HoldersKeepOs(h: Host, next: Host)
    requires OsInv(h)
    requires next == h.(holders := next.holders, alive := next.alive, known := next.known, open := next.open)
    requires next.holders.Keys == h.holders.Keys && next.open <= h.open
    requires next.alive <= next.known && h.known <= next.known
    requires forall p :: p in next.known ==> p.pid > 0
    requires forall t :: t in h.owner ==> next.holders[t] <= next.alive
    requires forall t :: t in next.open && h.owner[t] in next.alive ==> h.owner[t] in next.holders[t]
    ensures OsInv(next)
  {
  }

  lemma ForkOs(h: Host, c: Config, a: Action)
    requires OsInv(h) && a.Fork? && Enabled(h, a)
    ensures OsInv(Apply(h, a, c))
  {
    var next := Apply(h, a, c);
    assert next.holders.Keys == h.holders.Keys;
    forall t | t in h.owner ensures next.holders[t] <= next.alive {
      assert h.holders[t] <= h.alive;
    }
    forall t | t in next.open && h.owner[t] in next.alive ensures h.owner[t] in next.holders[t] {
      assert h.owner[t] in h.known && h.owner[t] != a.child;
    }
    HoldersKeepOs(h, next);
  }

  lemma DieOs(h: Host, c: Config, a: Action)
    requires OsInv(h) && a.Die? && Enabled(h, a)
    ensures OsInv(Apply(h, a, c))
  {
    var next := Apply(h, a, c);
    assert next.holders.Keys == h.holders.Keys;
    forall t | t in h.owner ensures next.holders[t] <= next.alive {
      assert h.holders[t] <= h.alive;
    }
    HoldersKeepOs(h, next);
  }

  lemma CloseInheritedOs(h: Host, c: Config, a: Action)
    requires OsInv(h) && a.CloseInherited? && Enabled(h, a)
    ensures OsInv(Apply(h, a, c))
  {
    var next := h.(holders := h.holders[a.ticket := h.holders[a.ticket] - {a.process}]);
    assert next.holders.Keys == h.holders.Keys;
    forall t | t in h.owner ensures next.holders[t] <= next.alive {
      assert h.holders[t] <= h.alive;
    }
    forall t | t in next.open && h.owner[t] in next.alive ensures h.owner[t] in next.holders[t] {
      assert h.owner[t] in h.holders[t];
    }
    HoldersKeepOs(h, next);
  }

  lemma CloseOwnOs(h: Host, c: Config, a: Action)
    requires OsInv(h) && a.CloseOwn? && Enabled(h, a)
    ensures OsInv(Apply(h, a, c))
  {
    assert a.ticket in h.holders;
    var next := h.(open := h.open - {a.ticket},
                   holders := h.holders[a.ticket := h.holders[a.ticket] - {h.owner[a.ticket]}]);
    assert next.holders.Keys == h.holders.Keys;
    forall t | t in h.owner ensures next.holders[t] <= next.alive {
      assert h.holders[t] <= h.alive;
    }
    forall t | t in next.open && h.owner[t] in next.alive ensures h.owner[t] in next.holders[t] {
      assert t != a.ticket && h.owner[t] in h.holders[t];
    }
    HoldersKeepOs(h, next);
  }

  lemma OpenLeaseOs(h: Host, c: Config, a: Action)
    requires OsInv(h) && a.OpenLease? && Enabled(h, a)
    ensures OsInv(Apply(h, a, c))
  {
  }

  lemma OsStepOs(h: Host, c: Config, a: Action)
    requires OsInv(h) && Enabled(h, a)
    requires !a.Register? && !a.Poll? && !a.Settle? && !a.Snapshot?
    ensures OsInv(Apply(h, a, c))
  {
    match a
    case Spawn(_) => HoldersKeepOs(h, Apply(h, a, c));
    case OpenLease(_, _) => OpenLeaseOs(h, c, a);
    case Fork(_, _, _) => ForkOs(h, c, a);
    case Die(_) => DieOs(h, c, a);
    case CloseInherited(_, _) => CloseInheritedOs(h, c, a);
    case CloseOwn(_) => CloseOwnOs(h, c, a);
    case Tick(_) =>
  }

  lemma OsStepEntries(h: Host, c: Config, a: Action)
    requires OsInv(h) && EntriesInv(h) && Enabled(h, a)
    requires !a.Register? && !a.Poll? && !a.Settle? && !a.Snapshot?
    ensures EntriesInv(Apply(h, a, c))
  {
    var next := Apply(h, a, c);
    forall e | e in next.dir.doc.entries ensures EntryInv(next, e) {
      assert EntryInv(h, e);
    }
  }

  /** When no lease becomes held and no owner comes to life, nothing about leases gets worse. */
  lemma FewerHoldersKeepLeases(h: Host, next: Host)
    requires LeaseInv(h) && next.holders.Keys == h.holders.Keys
    requires next.dir == h.dir && next.registered == h.registered
      && next.reclaimed == h.reclaimed && next.owner == h.owner
    requires forall t :: t in h.holders && next.holders[t] != {} ==> h.holders[t] != {}
    requires forall t :: LiveOwner(next, t) ==> LiveOwner(h, t)
    ensures LeaseInv(next)
  {
  }

  lemma OsStepLeases(h: Host, c: Config, a: Action)
    requires OsInv(h) && LeaseInv(h) && Enabled(h, a)
    requires !a.Register? && !a.Poll? && !a.Settle? && !a.Snapshot?
    ensures LeaseInv(Apply(h, a, c))
  {
    if a.OpenLease? {
      OpenLeaseLeases(h, c, a);
    } else {
      var next := Apply(h, a, c);
      assert next.holders.Keys == h.holders.Keys;
      forall t | t in h.holders && next.holders[t] != {} ensures h.holders[t] != {} {
        assert a.Fork? || next.holders[t] <= h.holders[t];
      }
      FewerHoldersKeepLeases(h, next);
    }
  }

  lemma OpenLeaseLeases(h: Host, c: Config, a: Action)
    requires OsInv(h) && LeaseInv(h) && a.OpenLease? && Enabled(h, a)
    ensures LeaseInv(Apply(h, a, c))
  {
    assert a.ticket !in h.registered;
    var next := Apply(h, a, c);
    assert forall t :: LiveOwner(next, t) ==> LiveOwner(h, t);
  }

  lemma StepKeepsInv(h: Host, a: Action, c: Config)
    requires Inv(h, c)
    ensures Inv(Step(h, a, c), c)
  {
    if Enabled(h, a) {
      match a
      case Register(_, _, _, _) => RegisterKeepsInv(h, c, a);
      case Poll(_) => PollKeepsInv(h, c, a);
      case Settle(_) => SettleKeepsInv(h, c, a);
      case Snapshot => SweepKeepsInv(h, c, None);
      case _ => OsStepKeepsInv(h, c, a);
    }
  }

  lemma {:induction false} RunKeepsInv(h: Host, actions: seq<Action>, c: Config)
    requires Inv(h, c)
    ensures Inv(Run(h, actions, c), c)
    decreases |actions|
  {
    if actions != [] {
      StepKeepsInv(h, actions[0], c);
      RunKeepsInv(Step(h, actions[0], c), actions[1..], c);
    }
  }

  // ---- what every run guarantees ----------------------------------------------------

  lemma BootInv(c: Config)
    ensures Inv(Boot, c)
  {
  }

  /**
   In every run, every document on disk passes validation, sequence numbers are distinct and below
   next_seq, each grant is in range, and the running grants never sum above the capacity.
   */
  lemma LedgerIsSoundInEveryRun(actions: seq<Action>, c: Config)
    ensures var doc := Run(Boot, actions, c).dir.doc;
      && ValidLedger(doc)
      && Increasing(doc.entries)
      && Used(doc.entries) <= Max(1, c.capacity)
      && (forall e :: e in doc.entries ==> Scheduled(e, doc.nextSeq, c))
  {
    BootInv(c);
    RunKeepsInv(Boot, actions, c);
  }

  /** In every run, the entry of a live waiter is in the ledger, so its next poll is never refused. */
  lemma LiveWaiterIsNeverDropped(actions: seq<Action>, c: Config, t: Ticket)
    requires LiveOwner(Run(Boot, actions, c), t)
    ensures var h := Run(Boot, actions, c);
      && t in Tickets(h.dir.doc.entries)
      && Admitted(h.dir, ProbeOf(h, c), t, c.capacity).1.Ok?
  {
    BootInv(c);
    RunKeepsInv(Boot, actions, c);
    var h := Run(Boot, actions, c);
    assert h.owner[t] in h.holders[t];
    PollFindsTicket(h, c, t);
  }

  /** Whatever the step, an entry lost under a held lease had no live supervisor and was stale. */
  lemma OnlyStaleEntriesAreReclaimed(h: Host, a: Action, c: Config, t: Ticket)
    requires Inv(h, c) && t in Step(h, a, c).reclaimed && t !in h.reclaimed
    ensures exists e :: e in h.dir.doc.entries && e.ticket == t && Stale(ProbeOf(h, c), e)
    ensures !LiveOwner(h, t)
  {
    match a
    case Register(_, _, _, _) =>
      RegisterIsAppend(h, c, a);
      SweepReclaimsOnlyStale(h, c, None, t);
    case Poll(mine) =>
      var swept := SweptHost(h, c, Some(mine));
      PollFindsTicket(h, c, mine);
      if Plan(c.capacity, swept.dir.doc.entries, mine).Some? {
        PollIsAdmit(h, c, mine);
      }
      SweepReclaimsOnlyStale(h, c, Some(mine), t);
    case Snapshot => SweepReclaimsOnlyStale(h, c, None, t);
    case Settle(mine) => SettleReclaimsNothing(h, c, a);
    case _ =>
  }

  lemma SettleReclaimsNothing(h: Host, c: Config, a: Action)
    requires Inv(h, c) && a.Settle?
    ensures Step(h, a, c).reclaimed == h.reclaimed
  {
    if Enabled(h, a) {
      var dir := Settled(h.dir, ProbeOf(h, c), a.ticket);
      if Registered(h.dir.doc.entries, a.ticket) {
        var e :| e in h.dir.doc.entries && e.ticket == a.ticket;
        assert EntryInv(h, e);
        SettledTickets(h, c, a.ticket);
      }
      NothingLost(h, dir);
    }
  }

  /** Settling removes the ticket exactly when nothing holds its lease. */
  lemma SettledTickets(h: Host, c: Config, t: Ticket)
    requires DocInv(h.dir.doc, c) && Registered(h.dir.doc.entries, t)
    ensures Tickets(Settled(h.dir, ProbeOf(h, c), t).doc.entries) == Tickets(h.dir.doc.entries)
      - if LeaseUnheld(h.dir.leases, ProbeOf(h, c), t) then {t} else {}
    ensures t in h.dir.leases ==> (LeaseUnheld(h.dir.leases, ProbeOf(h, c), t) <==> t !in Held(h))
  {
    var entries := h.dir.doc.entries;
    var k :| 0 <= k < |entries| && entries[k].ticket == t;
    if LeaseUnheld(h.dir.leases, ProbeOf(h, c), t) {
      WithoutTickets(entries, t);
    } else {
      OrphanShape(entries, t, h.now, k);
      TicketsByIndex(Orphan(entries, t, h.now), entries);
    }
  }

  // ---- physical use -------------------------------------------------------------------

  ghost function SumGrants(tickets: set<Ticket>, grants: map<Ticket, int>): int
    requires tickets <= grants.Keys
  {
    if tickets == {} then 0
    else
      var t :| t in tickets;
      grants[t] + SumGrants(tickets - {t}, grants)
  }

  lemma {:induction false} SumGrantsRemove(tickets: set<Ticket>, grants: map<Ticket, int>, t: Ticket)
    requires tickets <= grants.Keys && t in tickets
    ensures SumGrants(tickets, grants) == grants[t] + SumGrants(tickets - {t}, grants)
  {
    var picked :| picked in tickets
      && SumGrants(tickets, grants) == grants[picked] + SumGrants(tickets - {picked}, grants);
    if picked != t {
      SumGrantsRemove(tickets - {picked}, grants, t);
      SumGrantsRemove(tickets - {t}, grants, picked);
      assert tickets - {picked} - {t} == tickets - {t} - {picked};
    }
  }

  lemma {:induction false} SumFitsUsed(tickets: set<Ticket>, grants: map<Ticket, int>, entries: seq<Entry>)
    requires tickets <= grants.Keys && tickets <= Tickets(entries)
    requires forall e :: e in entries ==> GrantOf(e) >= 0
    requires forall e :: e in entries && e.ticket in tickets ==> GrantOf(e) == grants[e.ticket]
    ensures SumGrants(tickets, grants) <= Used(entries)
    decreases |entries|
  {
    if entries != [] {
      var e, rest := entries[0], entries[1..];
      var others := tickets - {e.ticket};
      assert entries == [e] + rest;
      forall t | t in others ensures t in Tickets(rest) {
        var x :| x in entries && x.ticket == t;
        assert x in rest;
      }
      SumFitsUsed(others, grants, rest);
      if e.ticket in tickets {
        SumGrantsRemove(tickets, grants, e.ticket);
      } else {
        assert others == tickets;
      }
    } else {
      assert tickets == {};
    }
  }

  /** The granted tickets some process is still spending, apart from the ones reclaimed as stale. */
  ghost function InUse(h: Host): set<Ticket> {
    set t | t in h.grants && t in h.holders && h.holders[t] != {} && t !in h.reclaimed
  }

  /** In every run, the grants physically in use fit the capacity, except those reclaimed as stale. */
  lemma PhysicalUseFitsCapacity(actions: seq<Action>, c: Config)
    ensures var h := Run(Boot, actions, c);
      SumGrants(InUse(h), h.grants) <= Max(1, c.capacity)
  {
    BootInv(c);
    RunKeepsInv(Boot, actions, c);
    var h := Run(Boot, actions, c);
    var entries := h.dir.doc.entries;
    forall e | e in entries
      ensures GrantOf(e) >= 0
      ensures e.ticket in InUse(h) ==> GrantOf(e) == h.grants[e.ticket]
    {
      assert ValidEntry(e) && EntryInv(h, e);
    }
    SumFitsUsed(InUse(h), h.grants, entries);
  }

  // ---- capacity comes back ---------------------------------------------------------------

  /** A ticket nothing holds any more is gone after the next sweep that does not protect it. */
  lemma FreeLeaseIsSwept(h: Host, c: Config, t: Ticket)
    requires Inv(h, c) && t !in Held(h)
    ensures t !in Tickets(SweptHost(h, c, None).dir.doc.entries)
  {
    SelectContents(h.dir.leases, ProbeOf(h, c), None, h.dir.doc.entries, true);
  }

  /**
   A settled ticket either left the ledger or became an orphan, which any sweep at least the stale
   bound later drops although its lease is still held.
   */
  lemma SettledCapacityComesBack(h: Host, c: Config, a: Action, later: Probe)
    requires Inv(h, c) && a.Settle? && Enabled(h, a) && h.now > 0.0
    requires later.now >= h.now + c.staleAfter && later.staleAfter == c.staleAfter
    ensures var dir := Apply(h, a, c).dir;
      a.ticket !in Tickets(Swept(dir, later, None).doc.entries)
    ensures a.ticket in Held(h) && a.ticket in Tickets(h.dir.doc.entries)
      ==> a.ticket in Tickets(Apply(h, a, c).dir.doc.entries)
  {
    var t, doc := a.ticket, h.dir.doc;
    var dir := Settled(h.dir, ProbeOf(h, c), t);
    RegisteredTickets(doc.entries, t);
    SelectContents(dir.leases, later, None, dir.doc.entries, true);
    if Registered(doc.entries, t) {
      SettledTickets(h, c, t);
      assert forall e :: e in doc.entries ==> EntryInv(h, e);
      SettledIsStale(h, c, t, later);
    }
  }

  lemma RegisteredTickets(entries: seq<Entry>, t: Ticket)
    ensures Registered(entries, t) <==> t in Tickets(entries)
  {
    if t in Tickets(entries) {
      var e :| e in entries && e.ticket == t;
      var k :| 0 <= k < |entries| && entries[k] == e;
    }
  }

  lemma SettledIsStale(h: Host, c: Config, t: Ticket, later: Probe)
    requires DocInv(h.dir.doc, c) && Registered(h.dir.doc.entries, t) && h.now > 0.0
    requires later.now >= h.now + c.staleAfter && later.staleAfter == c.staleAfter
    ensures forall e :: e in Settled(h.dir, ProbeOf(h, c), t).doc.entries && e.ticket == t ==> Stale(later, e)
  {
    var entries := h.dir.doc.entries;
    var k :| 0 <= k < |entries| && entries[k].ticket == t;
    if LeaseUnheld(h.dir.leases, ProbeOf(h, c), t) {
      WithoutContents(entries, t);
    } else {
      OrphanShape(entries, t, h.now, k);
      var after := Orphan(entries, t, h.now);
      forall e | e in after && e.ticket == t ensures Stale(later, e) {
        var i :| 0 <= i < |after| && after[i] == e;
        assert i == k;
      }
    }
  }
}
