/**
 The shared capacity ledger (tools/gc_dispatch/ledger.py). One state directory is shared by every
 dispatcher process; each public operation is one locked read, sweep, edit and replace of it.
 */
module Ledger {
  import opened Wrappers
  import opened Records
  import opened Admission

  datatype LedgerError = InvalidLedger | NotRegistered

  /** What an operation learns from the operating system while it holds the ledger lock. */
  datatype Probe = Probe(held: set<Ticket>, alive: set<Supervisor>, now: real, staleAfter: real)

  /** The directory's contents: the document (an absent file reads as the fresh one) and lease files. */
  datatype Dir = Dir(doc: Doc, leases: set<Ticket>)

  const FreshDoc := Doc(1, [])

  function NewEntry(ticket: Ticket, seqNo: int, profile: string, requested: int, minimum: int,
                    now: real, me: Supervisor): Entry {
    Entry(ticket, seqNo, profile, requested, minimum, None, Queued, now, None, Some(me), None)
  }

  // ---- reclaiming --------------------------------------------------------

  /** Whether no live process holds the lease; a missing file reads as unheld. */
  predicate LeaseUnheld(leases: set<Ticket>, probe: Probe, ticket: Ticket) {
    ticket !in leases || ticket !in probe.held
  }

  predicate SupervisorAlive(probe: Probe, supervisor: Option<Supervisor>) {
    supervisor.Some? && supervisor.value.pid > 0 && supervisor.value in probe.alive
  }

  /** The moment the stale bound is measured from. A zero time is falsy, as in the source's `or`. */
  function StaleBase(e: Entry): real {
    if e.orphanedAt.Some? && e.orphanedAt.value != 0.0 then e.orphanedAt.value
    else if e.startedAt.Some? && e.startedAt.value != 0.0 then e.startedAt.value
    else e.enqueuedAt
  }

  predicate Stale(probe: Probe, e: Entry) {
    !SupervisorAlive(probe, e.supervisor) && probe.now - StaleBase(e) >= probe.staleAfter
  }

  predicate Reclaimable(leases: set<Ticket>, probe: Probe, e: Entry) {
    LeaseUnheld(leases, probe, e.ticket) || Stale(probe, e)
  }

  predicate Keeps(leases: set<Ticket>, probe: Probe, protect: Option<Ticket>, e: Entry) {
    protect == Some(e.ticket) || !Reclaimable(leases, probe, e)
  }

  /** The entries the sweep keeps, or the ones it drops, in their order. */
  function Select(leases: set<Ticket>, probe: Probe, protect: Option<Ticket>, entries: seq<Entry>,
                  keep: bool): seq<Entry> {
    if entries == [] then []
    else
      var rest := Select(leases, probe, protect, entries[1..], keep);
      if Keeps(leases, probe, protect, entries[0]) == keep then [entries[0]] + rest else rest
  }

  lemma SelectNext(leases: set<Ticket>, probe: Probe, protect: Option<Ticket>, entries: seq<Entry>, i: nat, keep: bool,
                   before: seq<Entry>)
    requires i < |entries|
    ensures before + Select(leases, probe, protect, entries[i..], keep)
      == (before + if Keeps(leases, probe, protect, entries[i]) == keep then [entries[i]] else [])
         + Select(leases, probe, protect, entries[i + 1..], keep)
  {
    assert entries[i..][1..] == entries[i + 1..];
    assert before + [] == before;
  }

  function Tickets(entries: seq<Entry>): set<Ticket> {
    set e | e in entries :: e.ticket
  }

  function Swept(dir: Dir, probe: Probe, protect: Option<Ticket>): Dir {
    Dir(dir.doc.(entries := Select(dir.leases, probe, protect, dir.doc.entries, true)),
        dir.leases - Tickets(Select(dir.leases, probe, protect, dir.doc.entries, false)))
  }

  // ---- the operations on a directory ---------------------------------------

  ghost function Enqueued(dir: Dir, probe: Probe, entry: Entry): Dir {
    if ValidLedger(dir.doc) then
      var swept := Swept(Dir(dir.doc, dir.leases + {entry.ticket}), probe, None);
      var registered := entry.(seqNo := swept.doc.nextSeq);
      swept.(doc := Doc(swept.doc.nextSeq + 1, swept.doc.entries + [registered]))
    else dir
  }

  predicate Registered(entries: seq<Entry>, ticket: Ticket) {
    exists i :: 0 <= i < |entries| && entries[i].ticket == ticket
  }

  ghost function Admitted(dir: Dir, probe: Probe, ticket: Ticket, capacity: int): (Dir,
                          Result<Option<int>, LedgerError>) {
    if !ValidLedger(dir.doc) then (dir, Err(InvalidLedger))
    else
      var swept := Swept(dir, probe, Some(ticket));
      var entries := swept.doc.entries;
      if !Registered(entries, ticket) then (dir.(leases := swept.leases), Err(NotRegistered))
      else
        match Plan(capacity, entries, ticket)
        case None => (swept, Ok(None))
        case Some(grant) =>
          (swept.(doc := swept.doc.(entries := Admit(entries, ticket, grant, probe.now))), Ok(Some(grant)))
  }

  /** The entry of a released ticket whose lease a descendant still holds. */
  function Orphan(entries: seq<Entry>, ticket: Ticket, now: real): seq<Entry> {
    if entries == [] then []
    else if entries[0].ticket == ticket then
      [entries[0].(supervisor := None, orphanedAt := Some(now))] + entries[1..]
    else [entries[0]] + Orphan(entries[1..], ticket, now)
  }

  ghost function Settled(dir: Dir, probe: Probe, ticket: Ticket): Dir {
    if !ValidLedger(dir.doc) || !Registered(dir.doc.entries, ticket) then dir
    else if LeaseUnheld(dir.leases, probe, ticket) then
      Dir(dir.doc.(entries := Without(dir.doc.entries, ticket)), dir.leases - {ticket})
    else dir.(doc := dir.doc.(entries := Orphan(dir.doc.entries, ticket, probe.now)))
  }

  ghost function Observed(dir: Dir, probe: Probe): Dir {
    if ValidLedger(dir.doc) then Swept(dir, probe, None) else dir
  }

  // ---- the dispatcher's own object -----------------------------------------

  /** The per-user state directory. */
  class StateDir {
    var doc: Doc
    var leases: set<Ticket>

    constructor ()
      ensures View() == Dir(FreshDoc, {})
    {
      doc := FreshDoc;
      leases := {};
    }

    function View(): Dir
      reads this
    {
      Dir(doc, leases)
    }
  }

  class LedgerStore {
    const dir: StateDir
    const staleAfter: real
    var released: set<Ticket>

    constructor (dir: StateDir, staleAfter: real)
      ensures this.dir == dir && this.staleAfter == staleAfter && released == {}
    {
      this.dir := dir;
      this.staleAfter := staleAfter;
      released := {};
    }

    /** Drop every reclaimable entry of a document just read, unlinking the dropped lease files. */
    method Sweep(read: Doc, probe: Probe, protect: Option<Ticket>) returns (kept: Doc, changed: bool)
      modifies dir`leases
      ensures Dir(kept, dir.leases) == Swept(Dir(read, old(dir.leases)), probe, protect)
      ensures !changed ==> kept == read
    {
      var keptEntries: seq<Entry> := [];
      var dropped: seq<Entry> := [];
      var all := read.entries;
      ghost var leases := dir.leases;
      var i := 0;
      assert all[0..] == all;
      while i < |all|
        invariant 0 <= i <= |all| && dir.leases == leases
        invariant Select(leases, probe, protect, all, true)
          == keptEntries + Select(leases, probe, protect, all[i..], true)
        invariant Select(leases, probe, protect, all, false)
          == dropped + Select(leases, probe, protect, all[i..], false)
      {
        SelectNext(leases, probe, protect, all, i, true, keptEntries);
        SelectNext(leases, probe, protect, all, i, false, dropped);
        if protect == Some(all[i].ticket) || !Reclaimable(dir.leases, probe, all[i]) {
          keptEntries := keptEntries + [all[i]];
        } else {
          dropped := dropped + [all[i]];
        }
        i := i + 1;
      }
      assert keptEntries + [] == keptEntries && dropped + [] == dropped;
      Unlink(dropped);
      kept := read.(entries := keptEntries);
      changed := dropped != [];
      if !changed {
        NothingDropped(leases, probe, protect, all);
      }
    }

    method Unlink(dropped: seq<Entry>)
      modifies dir`leases
      ensures dir.leases == old(dir.leases) - Tickets(dropped)
    {
      for i := 0 to |dropped|
        invariant dir.leases == old(dir.leases) - Tickets(dropped[..i])
      {
        assert dropped[..i + 1] == dropped[..i] + [dropped[i]];
        dir.leases := dir.leases - {dropped[i].ticket};
      }
      assert dropped[..|dropped|] == dropped;
    }

    /** Claim a lease, then register the queued entry it backs; a refused ledger leaves no trace. */
    method Enqueue(ticket: Ticket, profile: string, requested: int, minimum: int, me: Supervisor, probe: Probe)
      returns (r: Result<int, LedgerError>)
      requires ticket !in dir.leases
      modifies dir
      ensures dir.View() == Enqueued(old(dir.View()), probe,
                                     NewEntry(ticket, 0, profile, requested, minimum, probe.now, me))
      ensures r == if ValidLedger(old(dir.doc)) then Ok(old(dir.doc.nextSeq)) else Err(InvalidLedger)
      ensures r.Ok? ==>
        && dir.doc.entries != []
        && var e := dir.doc.entries[|dir.doc.entries| - 1];
          && e.ticket == ticket && e.seqNo == r.value && e.profile == profile
          && e.requested == requested && e.minimum == minimum
          && e.state == Queued && e.enqueuedAt == probe.now && e.supervisor == Some(me)
    {
      dir.leases := dir.leases + {ticket};
      var entry := NewEntry(ticket, 0, profile, requested, minimum, probe.now, me);
      var valid := ValidateLedger(dir.doc);
      if !valid {
        dir.leases := dir.leases - {ticket};
        return Err(InvalidLedger);
      }
      var doc, _ := Sweep(dir.doc, probe, None);
      entry := entry.(seqNo := doc.nextSeq);
      doc := Doc(entry.seqNo + 1, doc.entries + [entry]);
      dir.doc := doc;
      r := Ok(entry.seqNo);
    }

    /** One poll: the ticket's grant, nothing while it must wait, or the ledger's error. */
    method TryAdmit(ticket: Ticket, capacity: int, probe: Probe) returns (r: Result<Option<int>, LedgerError>)
      modifies dir
      ensures (dir.View(), r) == Admitted(old(dir.View()), probe, ticket, capacity)
    {
      var valid := ValidateLedger(dir.doc);
      if !valid {
        return Err(InvalidLedger);
      }
      var doc, changed := Sweep(dir.doc, probe, Some(ticket));
      if !Registered(doc.entries, ticket) {
        return Err(NotRegistered);
      }
      var granted := PlanAdmission(capacity, doc.entries, ticket);
      if granted.Some? {
        doc := doc.(entries := Admit(doc.entries, ticket, granted.value, probe.now));
        changed := true;
      }
      if changed {
        dir.doc := doc;
      }
      r := Ok(granted);
    }

    /** Give a grant back; the probe is taken after this process closed its own descriptor. */
    method Release(ticket: Ticket, probe: Probe)
      modifies dir, this`released
      ensures dir.View() == Settled(old(dir.View()), probe, ticket)
      ensures released == old(released) + {ticket}
    {
      released := released + {ticket};
      var valid := ValidateLedger(dir.doc);
      if !valid || !Registered(dir.doc.entries, ticket) {
        return;
      }
      if LeaseUnheld(dir.leases, probe, ticket) {
        dir.doc := dir.doc.(entries := Without(dir.doc.entries, ticket));
        dir.leases := dir.leases - {ticket};
      } else {
        dir.doc := dir.doc.(entries := Orphan(dir.doc.entries, ticket, probe.now));
      }
    }

    method Snapshot(probe: Probe) returns (r: Result<seq<Entry>, LedgerError>)
      modifies dir
      ensures dir.View() == Observed(old(dir.View()), probe)
      ensures r == if ValidLedger(old(dir.doc)) then Ok(dir.doc.entries) else Err(InvalidLedger)
    {
      var valid := ValidateLedger(dir.doc);
      if !valid {
        return Err(InvalidLedger);
      }
      var doc, changed := Sweep(dir.doc, probe, None);
      if changed {
        dir.doc := doc;
      }
      r := Ok(doc.entries);
    }
  }

  // ---- what a sweep keeps ----------------------------------------------------

  lemma {:induction false} NothingDropped(leases: set<Ticket>, probe: Probe, protect: Option<Ticket>,
                                          entries: seq<Entry>)
    requires Select(leases, probe, protect, entries, false) == []
    ensures Select(leases, probe, protect, entries, true) == entries
  {
    if entries != [] {
      NothingDropped(leases, probe, protect, entries[1..]);
    }
  }

  lemma {:induction false} SelectContents(leases: set<Ticket>, probe: Probe, protect: Option<Ticket>,
                                          entries: seq<Entry>, keep: bool)
    ensures forall e :: (e in Select(leases, probe, protect, entries, keep)
      <==> e in entries && Keeps(leases, probe, protect, e) == keep)
  {
    if entries != [] {
      SelectContents(leases, probe, protect, entries[1..], keep);
      assert entries == [entries[0]] + entries[1..];
    }
  }

  lemma {:induction false} SelectDisjoint(leases: set<Ticket>, probe: Probe, protect: Option<Ticket>,
                                          entries: seq<Entry>)
    requires DistinctTickets(entries)
    ensures Tickets(Select(leases, probe, protect, entries, true))
      !! Tickets(Select(leases, probe, protect, entries, false))
  {
    SelectContents(leases, probe, protect, entries, true);
    SelectContents(leases, probe, protect, entries, false);
    forall a, b | a in entries && b in entries && a.ticket == b.ticket ensures a == b {
      var i :| 0 <= i < |entries| && entries[i] == a;
      var j :| 0 <= j < |entries| && entries[j] == b;
      assert i == j;
    }
  }

  lemma {:induction false} KeptUses(leases: set<Ticket>, probe: Probe, protect: Option<Ticket>, entries: seq<Entry>)
    requires forall e :: e in entries ==> GrantOf(e) >= 0
    ensures 0 <= Used(Select(leases, probe, protect, entries, true)) <= Used(entries)
  {
    if entries != [] {
      var rest := Select(leases, probe, protect, entries[1..], true);
      KeptUses(leases, probe, protect, entries[1..]);
      assert ([entries[0]] + rest)[1..] == rest;
    }
  }

  /** Registrations take growing sequence numbers, so a document is sorted by them. */
  ghost predicate Increasing(entries: seq<Entry>) {
    forall i, j {:trigger entries[i], entries[j]} :: 0 <= i < j < |entries| ==> entries[i].seqNo < entries[j].seqNo
  }

  lemma {:induction false} KeptOrder(leases: set<Ticket>, probe: Probe, protect: Option<Ticket>, entries: seq<Entry>)
    requires DistinctTickets(entries) && Increasing(entries)
    ensures DistinctTickets(Select(leases, probe, protect, entries, true))
    ensures Increasing(Select(leases, probe, protect, entries, true))
  {
    if entries != [] {
      var rest := Select(leases, probe, protect, entries[1..], true);
      KeptOrder(leases, probe, protect, entries[1..]);
      SelectContents(leases, probe, protect, entries[1..], true);
      forall i | 0 <= i < |rest|
        ensures rest[i].ticket != entries[0].ticket && entries[0].seqNo < rest[i].seqNo
      {
        assert rest[i] in entries[1..];
      }
    }
  }
}
