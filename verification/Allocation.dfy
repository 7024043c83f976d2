/**
 Capacity allocation of the sandbox lifecycle helper (tools/incus_sandbox/helper.py): admission,
 reservation, rollback and release around Incus commands and audit writes, any of which may fail.
 */
module Allocation {
  import opened Wrappers

  // ---- the allocations file: a dictionary in insertion order ------------------------------

  datatype Record = Record(cpu: int, memory: int, disk: int, owner: int, active: bool)

  datatype Entry = Entry(name: string, record: Record)

  type Records = seq<Entry>

  function Get(rs: Records, name: string): Option<Record> {
    if rs == [] then None else if rs[0].name == name then Some(rs[0].record) else Get(rs[1..], name)
  }

  /** Assignment to a key: in place if it is there, else at the end. */
  function Put(rs: Records, name: string, r: Record): Records {
    if rs == [] then [Entry(name, r)]
    else if rs[0].name == name then [Entry(name, r)] + rs[1..]
    else [rs[0]] + Put(rs[1..], name, r)
  }

  function Pop(rs: Records, name: string): Records {
    if rs == [] then [] else if rs[0].name == name then rs[1..] else [rs[0]] + Pop(rs[1..], name)
  }

  predicate IsActive(rs: Records, name: string) {
    Get(rs, name).Some? && Get(rs, name).value.active
  }

  function Deactivate(rs: Records, name: string): Records {
    match Get(rs, name)
    case None => rs
    case Some(r) => Put(rs, name, r.(active := false))
  }

  lemma {:induction false} PutThenGet(rs: Records, name: string, r: Record, other: string)
    ensures Get(Put(rs, name, r), other) == if other == name then Some(r) else Get(rs, other)
  {
    if rs != [] && rs[0].name != name {
      PutThenGet(rs[1..], name, r, other);
    }
  }

  /** A fresh reservation is undone exactly by removing it. */
  lemma {:induction false} PopUndoesPut(rs: Records, name: string, r: Record)
    requires Get(rs, name).None?
    ensures Pop(Put(rs, name, r), name) == rs
  {
    if rs != [] {
      PopUndoesPut(rs[1..], name, r);
    }
  }

  /** A replaced record is restored exactly by putting it back. */
  lemma {:induction false} PutUndoesPut(rs: Records, name: string, r: Record)
    requires Get(rs, name).Some?
    ensures Put(Put(rs, name, r), name, Get(rs, name).value) == rs
  {
    if rs[0].name != name {
      PutUndoesPut(rs[1..], name, r);
    }
  }

  ghost predicate UniqueNames(rs: Records) {
    forall i, j {:trigger rs[i], rs[j]} :: 0 <= i < j < |rs| ==> rs[i].name != rs[j].name
  }

  // ---- admission ------------------------------------------------------------------------------

  datatype Config = Config(vmCpu: int, vmMemory: int, vmDisk: int, reserveMemory: int, reserveDisk: int,
                           maxCpu: int, maxMemory: int, maxDisk: int, overheadDisk: int, operator: int)

  /** What the host reports; a fact may be missing. */
  datatype Observation = Observation(current: bool, memory: Option<int>, disk: Option<int>, network: bool)

  datatype Refusal =
    | StaleObservation | UnavailableObservation | StaleNetwork | NoHeadroom
    | AlreadyReserved | AlreadyAllocated | NotOwned | NoCapacity | WrongOperator

  function Fact(value: Option<int>): Option<int> {
    if value.Some? && value.value >= 0 then value else None
  }

  function CpuUsed(rs: Records): int {
    if rs == [] then 0 else (if rs[0].record.active then rs[0].record.cpu else 0) + CpuUsed(rs[1..])
  }

  function MemoryUsed(rs: Records): int {
    if rs == [] then 0 else (if rs[0].record.active then rs[0].record.memory else 0) + MemoryUsed(rs[1..])
  }

  function DiskUsed(rs: Records): int {
    if rs == [] then 0 else (if rs[0].record.active then rs[0].record.disk else 0) + DiskUsed(rs[1..])
  }

  predicate AggregateFits(c: Config, rs: Records) {
    && CpuUsed(rs) + c.vmCpu <= c.maxCpu && MemoryUsed(rs) + c.vmMemory <= c.maxMemory
    && DiskUsed(rs) + c.vmDisk + c.overheadDisk <= c.maxDisk
  }

  function CheckObservation(c: Config, o: Observation): Option<Refusal> {
    if !o.current then Some(StaleObservation)
    else if Fact(o.memory).None? || Fact(o.disk).None? then Some(UnavailableObservation)
    else if !o.network then Some(StaleNetwork)
    else if o.memory.value < c.reserveMemory + c.vmMemory || o.disk.value < c.reserveDisk + c.vmDisk
         then Some(NoHeadroom)
    else None
  }

  function CheckTransition(c: Config, caller: int, rs: Records, name: string, isNew: bool): Option<Refusal> {
    var previous := Get(rs, name);
    if previous.Some? && previous.value.active then Some(AlreadyReserved)
    else if isNew && previous.Some? then Some(AlreadyAllocated)
    else if !isNew && previous.None? then Some(NotOwned)
    else if !AggregateFits(c, rs) then Some(NoCapacity)
    else if caller != c.operator then Some(WrongOperator)
    else None
  }

  function Reservation(c: Config, caller: int): Record {
    Record(c.vmCpu, c.vmMemory, c.vmDisk, caller, true)
  }

  /** The reserved records of an admitted request. */
  function Admit(c: Config, caller: int, o: Observation, rs: Records, name: string,
                 isNew: bool): Result<Records, Refusal> {
    if CheckObservation(c, o).Some? then Err(CheckObservation(c, o).value)
    else if CheckTransition(c, caller, rs, name, isNew).Some?
         then Err(CheckTransition(c, caller, rs, name, isNew).value)
    else Ok(Put(rs, name, Reservation(c, caller)))
  }

  function Restored(rs: Records, name: string, previous: Option<Record>): Records {
    match previous
    case None => Pop(rs, name)
    case Some(r) => Put(rs, name, r)
  }

  predicate Owns(c: Config, caller: int, rs: Records, name: string) {
    caller == c.operator && Get(rs, name).Some? && Get(rs, name).value.owner == caller
  }

  // ---- the four lifecycle operations -----------------------------------------------------------

  /** Everything the operations touch. `vms` says which instances exist and which of them run. */
  datatype Host = Host(records: Records, vms: map<string, bool>, tasks: set<string>, bindings: set<string>)

  /** What the outside world does to one operation: which command and which audit write fails. */
  datatype Outside = Outside(auditReady: bool, observed: Observation, failing: Option<nat>, auditFails: bool,
                             bootAuditFails: bool, cleanupFails: bool, taskStopFails: bool)

  datatype Op = Create | Start | Stop | Delete(confirmation: Option<string>)

  datatype Done = Done(host: Host, ok: bool)

  predicate ValidName(s: string) {
    && 0 < |s| <= 48 && 'a' <= s[0] <= 'z'
    && forall i :: 1 <= i < |s| ==> 'a' <= s[i] <= 'z' || '0' <= s[i] <= '9' || s[i] == '-'
  }

  predicate Runs(out: Outside, command: nat) {
    out.failing != Some(command)
  }

  /** How many of create's three commands succeed: launch, then the two limits. */
  function Launched(h: Host, name: string, out: Outside): nat {
    if name in h.vms || !Runs(out, 0) then 0
    else if !Runs(out, 1) then 1
    else if !Runs(out, 2) then 2
    else 3
  }

  function RolledBack(h: Host, name: string, previous: Option<Record>, delete: bool, out: Outside): Host {
    h.(records := Restored(h.records, name, previous),
       vms := if delete && !out.cleanupFails then h.vms - {name} else h.vms)
  }

  function Created(c: Config, caller: int, h: Host, name: string, out: Outside): Done {
    if !ValidName(name) || !out.auditReady then Done(h, false)
    else
      match Admit(c, caller, out.observed, h.records, name, true)
      case Err(_) => Done(h, false)
      case Ok(reserved) =>
        var steps := Launched(h, name, out);
        var launched := h.(records := reserved, vms := if steps > 0 then h.vms[name := true] else h.vms);
        if steps < 3 || out.auditFails then Done(RolledBack(launched, name, None, steps > 0, out), false)
        else Done(launched, !out.bootAuditFails)
  }

  function Restarted(c: Config, caller: int, h: Host, name: string, out: Outside): Done {
    if !ValidName(name) || !out.auditReady then Done(h, false)
    else
      match Admit(c, caller, out.observed, h.records, name, false)
      case Err(_) => Done(h, false)
      case Ok(reserved) =>
        var up := name in h.vms && Runs(out, 0);
        var started := h.(records := reserved, vms := if up then h.vms[name := true] else h.vms);
        if !up || out.auditFails then Done(RolledBack(started, name, Get(h.records, name), false, out), false)
        else Done(started.(tasks := h.tasks - {name}), true)
  }

  /** Ownership, then the task session; none when one of them fails. */
  function Quieted(c: Config, caller: int, h: Host, name: string, out: Outside): Option<Host> {
    if !Owns(c, caller, h.records, name) then None
    else if name in h.tasks && out.taskStopFails then None
    else Some(h.(tasks := h.tasks - {name}))
  }

  function Released(h: Host, name: string): Host {
    h.(records := Deactivate(h.records, name))
  }

  function Stopped(c: Config, caller: int, h: Host, name: string, out: Outside): Done {
    if !ValidName(name) then Done(h, false)
    else
      match Quieted(c, caller, h, name, out)
      case None => Done(h, false)
      case Some(quiet) =>
        if !out.auditReady || name !in quiet.vms || !Runs(out, 0) then Done(quiet, false)
        else Done(Released(quiet.(vms := quiet.vms[name := false]), name), !out.auditFails)
  }

  function Deleted(c: Config, caller: int, h: Host, name: string, confirmation: Option<string>, out: Outside): Done {
    if !ValidName(name) || confirmation != Some(name) then Done(h, false)
    else
      match Quieted(c, caller, h, name, out)
      case None => Done(h, false)
      case Some(quiet) =>
        if !out.auditReady || name !in quiet.vms || !Runs(out, 0) then Done(quiet, false)
        else
          var gone := Released(quiet.(vms := quiet.vms - {name}), name);
          if out.auditFails then Done(gone, false)
          else Done(Host(Pop(gone.records, name), gone.vms, gone.tasks - {name}, gone.bindings - {name}), true)
  }

  function Perform(c: Config, caller: int, h: Host, op: Op, name: string, out: Outside): Done {
    match op
    case Create => Created(c, caller, h, name, out)
    case Start => Restarted(c, caller, h, name, out)
    case Stop => Stopped(c, caller, h, name, out)
    case Delete(confirmation) => Deleted(c, caller, h, name, confirmation, out)
  }

  class LifecycleHelper {
    const config: Config
    const caller: int
    var records: Records
    var vms: map<string, bool>
    var tasks: set<string>
    var bindings: set<string>

    constructor (config: Config, caller: int)
      ensures View() == Host([], map[], {}, {}) && this.config == config && this.caller == caller
    {
      this.config, this.caller := config, caller;
      records, vms, tasks, bindings := [], map[], {}, {};
    }

    function View(): Host
      reads this
    {
      Host(records, vms, tasks, bindings)
    }

    /** Restores the prior allocation and removes only an instance this call created. */
    method RollbackReservation(name: string, previous: Option<Record>, delete: bool, out: Outside)
      modifies this`records, this`vms
      ensures View() == RolledBack(old(View()), name, previous, delete, out)
    {
      if previous.None? {
        records := Pop(records, name);
      } else {
        records := Put(records, name, previous.value);
      }
      if delete && !out.cleanupFails {
        vms := vms - {name};
      }
    }

    method CreateVm(name: string, out: Outside) returns (ok: bool)
      modifies this
      ensures Done(View(), ok) == Created(config, caller, old(View()), name, out)
      ensures ok ==>
        && name in vms && vms[name]
        && Get(records, name) == Some(Record(config.vmCpu, config.vmMemory, config.vmDisk, config.operator, true))
    {
      if !ValidName(name) || !out.auditReady {
        return false;
      }
      var admitted := Admit(config, caller, out.observed, records, name, true);
      if admitted.Err? {
        return false;
      }
      records := admitted.value;
      var created, command := false, 0;
      while command < 3 && (command > 0 || name !in vms) && Runs(out, command)
        invariant 0 <= command <= 3 && (created <==> command > 0)
        invariant Launched(old(View()), name, out) >= command
        invariant records == admitted.value && tasks == old(tasks) && bindings == old(bindings)
        invariant vms == if command > 0 then old(vms)[name := true] else old(vms)
      {
        if command == 0 {
          vms := vms[name := true];
        }
        created := true;
        command := command + 1;
      }
      if command < 3 || out.auditFails {
        RollbackReservation(name, None, created, out);
        return false;
      }
      ok := !out.bootAuditFails;
      PutThenGet(old(records), name, Reservation(config, caller), name);
    }

    method StartVm(name: string, out: Outside) returns (ok: bool)
      modifies this
      ensures Done(View(), ok) == Restarted(config, caller, old(View()), name, out)
    {
      if !ValidName(name) || !out.auditReady {
        return false;
      }
      var previous := Get(records, name);
      var admitted := Admit(config, caller, out.observed, records, name, false);
      if admitted.Err? {
        return false;
      }
      records := admitted.value;
      if name !in vms || !Runs(out, 0) {
        RollbackReservation(name, previous, false, out);
        return false;
      }
      vms := vms[name := true];
      if out.auditFails {
        RollbackReservation(name, previous, false, out);
        return false;
      }
      tasks := tasks - {name};
      ok := true;
    }

    method StopVm(name: string, out: Outside) returns (ok: bool)
      modifies this
      ensures Done(View(), ok) == Stopped(config, caller, old(View()), name, out)
    {
      if !ValidName(name) || !Owns(config, caller, records, name) || (name in tasks && out.taskStopFails) {
        return false;
      }
      tasks := tasks - {name};
      if !out.auditReady || name !in vms || !Runs(out, 0) {
        return false;
      }
      vms := vms[name := false];
      records := Deactivate(records, name);
      ok := !out.auditFails;
    }

    method DeleteVm(name: string, confirmation: Option<string>, out: Outside) returns (ok: bool)
      modifies this
      ensures Done(View(), ok) == Deleted(config, caller, old(View()), name, confirmation, out)
    {
      if !ValidName(name) || confirmation != Some(name) {
        return false;
      }
      if !Owns(config, caller, records, name) || (name in tasks && out.taskStopFails) {
        return false;
      }
      tasks := tasks - {name};
      if !out.auditReady || name !in vms || !Runs(out, 0) {
        return false;
      }
      vms := vms - {name};
      records := Deactivate(records, name);
      if out.auditFails {
        return false;
      }
      records := Pop(records, name);
      bindings := bindings - {name};
      tasks := tasks - {name};
      ok := true;
    }
  }

  // ---- the allocation invariant ------------------------------------------------------------------

  /** Active records stay within processors and memory, and within disk less the fixed overhead. */
  ghost predicate WithinCapacity(c: Config, rs: Records) {
    && CpuUsed(rs) <= c.maxCpu && MemoryUsed(rs) <= c.maxMemory
    && (DiskUsed(rs) == 0 || DiskUsed(rs) + c.overheadDisk <= c.maxDisk)
  }

  predicate ValidConfig(c: Config) {
    && 0 < c.vmCpu <= c.maxCpu && 0 < c.vmMemory <= c.maxMemory && 0 < c.vmDisk <= c.maxDisk
    && c.reserveMemory > 0 && c.reserveDisk > 0 && c.overheadDisk > 0 && c.operator > 0
  }

  /** What reading the file back accepts of one record. */
  predicate ValidEntry(e: Entry) {
    ValidName(e.name) && e.record.cpu > 0 && e.record.memory > 0 && e.record.disk > 0 && e.record.owner > 0
  }

  ghost predicate AllValid(rs: Records) {
    forall e :: e in rs ==> ValidEntry(e)
  }

  function ActiveCpu(r: Option<Record>): int {
    if r.Some? && r.value.active then r.value.cpu else 0
  }

  function ActiveMemory(r: Option<Record>): int {
    if r.Some? && r.value.active then r.value.memory else 0
  }

  function ActiveDisk(r: Option<Record>): int {
    if r.Some? && r.value.active then r.value.disk else 0
  }

  /** Assigning a record changes each sum by the difference, and keeps names unique and records valid. */
  lemma {:induction false} PutSums(rs: Records, name: string, r: Record)
    ensures CpuUsed(Put(rs, name, r)) == CpuUsed(rs) - ActiveCpu(Get(rs, name)) + ActiveCpu(Some(r))
    ensures MemoryUsed(Put(rs, name, r)) == MemoryUsed(rs) - ActiveMemory(Get(rs, name)) + ActiveMemory(Some(r))
    ensures DiskUsed(Put(rs, name, r)) == DiskUsed(rs) - ActiveDisk(Get(rs, name)) + ActiveDisk(Some(r))
    ensures AllValid(rs) && ValidEntry(Entry(name, r)) ==> AllValid(Put(rs, name, r))
  {
    if rs != [] {
      assert AllValid(rs) ==> AllValid(rs[1..]) && ValidEntry(rs[0]);
      if rs[0].name == name {
        assert ([Entry(name, r)] + rs[1..])[1..] == rs[1..];
      } else {
        PutSums(rs[1..], name, r);
        assert ([rs[0]] + Put(rs[1..], name, r))[1..] == Put(rs[1..], name, r);
      }
    }
  }

  lemma {:induction false} PopSums(rs: Records, name: string)
    ensures CpuUsed(Pop(rs, name)) == CpuUsed(rs) - ActiveCpu(Get(rs, name))
    ensures MemoryUsed(Pop(rs, name)) == MemoryUsed(rs) - ActiveMemory(Get(rs, name))
    ensures DiskUsed(Pop(rs, name)) == DiskUsed(rs) - ActiveDisk(Get(rs, name))
    ensures AllValid(rs) ==> AllValid(Pop(rs, name))
  {
    if rs != [] {
      assert AllValid(rs) ==> AllValid(rs[1..]) && ValidEntry(rs[0]);
      if rs[0].name != name {
        PopSums(rs[1..], name);
        assert ([rs[0]] + Pop(rs[1..], name))[1..] == Pop(rs[1..], name);
      }
    }
  }

  lemma {:induction false} NamesAfterPut(rs: Records, name: string, r: Record)
    requires UniqueNames(rs)
    ensures UniqueNames(Put(rs, name, r))
    ensures forall e :: e in Put(rs, name, r) ==> e.name == name || exists f :: f in rs && f.name == e.name
  {
    if rs != [] && rs[0].name != name {
      NamesAfterPut(rs[1..], name, r);
      var tail := Put(rs[1..], name, r);
      assert forall j :: 0 <= j < |tail| ==> tail[j] in tail;
      assert forall e :: e in tail ==> e.name != rs[0].name;
    }
  }

  lemma {:induction false} NamesAfterPop(rs: Records, name: string)
    requires UniqueNames(rs)
    ensures UniqueNames(Pop(rs, name)) && Get(Pop(rs, name), name).None?
    ensures forall e :: e in Pop(rs, name) ==> e in rs
    ensures forall other :: other != name ==> Get(Pop(rs, name), other) == Get(rs, other)
  {
    if rs != [] {
      if rs[0].name == name {
        AbsentByName(rs[1..], name);
      } else {
        NamesAfterPop(rs[1..], name);
        var tail := Pop(rs[1..], name);
        assert forall j :: 0 <= j < |tail| ==> tail[j] in tail;
      }
    }
  }

  lemma {:induction false} AbsentByName(rs: Records, name: string)
    requires forall e :: e in rs ==> e.name != name
    ensures Get(rs, name).None?
  {
    if rs != [] {
      AbsentByName(rs[1..], name);
    }
  }

  lemma {:induction false} GetIsValid(rs: Records, name: string)
    requires AllValid(rs)
    ensures Get(rs, name).Some? ==> ValidEntry(Entry(name, Get(rs, name).value))
  {
    if rs != [] && rs[0].name != name {
      GetIsValid(rs[1..], name);
    }
  }

  /** What every saved allocations file satisfies. */
  ghost predicate Sound(c: Config, rs: Records) {
    AllValid(rs) && UniqueNames(rs) && WithinCapacity(c, rs)
  }

  /** The reservation section: an admitted request keeps the file sound. */
  lemma AdmissionIsSound(c: Config, caller: int, o: Observation, rs: Records, name: string, isNew: bool)
    requires ValidConfig(c) && ValidName(name) && Sound(c, rs)
    requires Admit(c, caller, o, rs, name, isNew).Ok?
    ensures Sound(c, Admit(c, caller, o, rs, name, isNew).value)
  {
    PutSums(rs, name, Reservation(c, caller));
    NamesAfterPut(rs, name, Reservation(c, caller));
  }

  lemma DeactivationIsSound(c: Config, rs: Records, name: string)
    requires Sound(c, rs)
    ensures Sound(c, Deactivate(rs, name))
    ensures !IsActive(Deactivate(rs, name), name)
    ensures forall other :: other != name ==> Get(Deactivate(rs, name), other) == Get(rs, other)
  {
    var previous := Get(rs, name);
    if previous.Some? {
      var r := previous.value.(active := false);
      GetIsValid(rs, name);
      PutSums(rs, name, r);
      NamesAfterPut(rs, name, r);
      DiskIsNonNegative(rs);
      DiskIsNonNegative(Put(rs, name, r));
      forall other ensures Get(Put(rs, name, r), other) == if other == name then Some(r) else Get(rs, other) {
        PutThenGet(rs, name, r, other);
      }
    }
  }

  lemma {:induction false} DiskIsNonNegative(rs: Records)
    requires AllValid(rs)
    ensures DiskUsed(rs) >= 0
  {
    if rs != [] {
      assert rs[0] in rs;
      DiskIsNonNegative(rs[1..]);
    }
  }

  lemma RemovalIsSound(c: Config, rs: Records, name: string)
    requires Sound(c, rs)
    ensures Sound(c, Pop(rs, name))
  {
    PopSums(rs, name);
    NamesAfterPop(rs, name);
    GetIsValid(rs, name);
    DiskIsNonNegative(Pop(rs, name));
  }

  lemma RollbackRestores(c: Config, caller: int, o: Observation, rs: Records, name: string, isNew: bool)
    requires Admit(c, caller, o, rs, name, isNew).Ok?
    ensures Restored(Admit(c, caller, o, rs, name, isNew).value, name, if isNew then None else Get(rs, name)) == rs
  {
    if isNew {
      PopUndoesPut(rs, name, Reservation(c, caller));
    } else {
      PutUndoesPut(rs, name, Reservation(c, caller));
    }
  }

  // ---- exact rollback ----------------------------------------------------------------------------

  /** A failed start leaves the saved records exactly as they were, order included. */
  lemma FailedStartRestoresRecords(c: Config, caller: int, h: Host, name: string, out: Outside)
    requires !Restarted(c, caller, h, name, out).ok
    ensures Restarted(c, caller, h, name, out).host.records == h.records
    ensures Restarted(c, caller, h, name, out).host.tasks == h.tasks
  {
    if Admit(c, caller, out.observed, h.records, name, false).Ok? {
      RollbackRestores(c, caller, out.observed, h.records, name, false);
    }
  }

  /** The last write of a create comes after its rollback guard. */
  predicate OnlyBootAuditFails(c: Config, caller: int, h: Host, name: string, out: Outside) {
    && ValidName(name) && out.auditReady && Admit(c, caller, out.observed, h.records, name, true).Ok?
    && name !in h.vms && out.failing !in {Some(0), Some(1), Some(2)} && !out.auditFails && out.bootAuditFails
  }

  /**
   A failed create restores the saved records exactly, unless the only thing that failed is the boot
   audit at its very end: then the sandbox stays reserved and running although create raised.
   */
  lemma FailedCreateRestoresRecordsIff(c: Config, caller: int, h: Host, name: string, out: Outside)
    requires !Created(c, caller, h, name, out).ok
    ensures Created(c, caller, h, name, out).host.records == h.records <==> !OnlyBootAuditFails(c, caller, h, name, out)
    ensures (OnlyBootAuditFails(c, caller, h, name, out)
      ==> IsActive(Created(c, caller, h, name, out).host.records, name)
            && name in Created(c, caller, h, name, out).host.vms)
  {
    var admitted := Admit(c, caller, out.observed, h.records, name, true);
    if ValidName(name) && out.auditReady && admitted.Ok? {
      RollbackRestores(c, caller, out.observed, h.records, name, true);
      PutThenGet(h.records, name, Reservation(c, caller), name);
    }
  }

  // ---- running instances and active records ---------------------------------------------------------

  /** Every running instance is paid for by an active record. */
  ghost predicate Accounted(h: Host) {
    forall name :: name in h.vms && h.vms[name] ==> IsActive(h.records, name)
  }

  /** The two ways to lose track: an unaudited start, and a cleanup that fails after a launch. */
  predicate LosesTrack(c: Config, caller: int, h: Host, op: Op, name: string, out: Outside) {
    && ValidName(name) && out.auditReady
    && match op
       case Create =>
         && Admit(c, caller, out.observed, h.records, name, true).Ok?
         && name !in h.vms && Runs(out, 0) && (!Runs(out, 1) || !Runs(out, 2) || out.auditFails) && out.cleanupFails
       case Start =>
         && Admit(c, caller, out.observed, h.records, name, false).Ok?
         && name in h.vms && Runs(out, 0) && out.auditFails
       case _ => false
  }

  lemma AccountedByOthers(h: Host, t: Host, name: string)
    requires Accounted(h)
    requires forall other :: other != name ==> Get(t.records, other) == Get(h.records, other)
    requires forall other :: other != name ==>
      (other in t.vms <==> other in h.vms) && (other in t.vms ==> t.vms[other] == h.vms[other])
    ensures Accounted(t) <==> (name in t.vms && t.vms[name] ==> IsActive(t.records, name))
  {
    forall other | other != name && other in t.vms && t.vms[other] ensures IsActive(t.records, other) {
      assert IsActive(h.records, other);
    }
  }

  lemma ReservationFrames(c: Config, caller: int, rs: Records, name: string)
    ensures forall other :: other != name ==> Get(Put(rs, name, Reservation(c, caller)), other) == Get(rs, other)
    ensures IsActive(Put(rs, name, Reservation(c, caller)), name)
  {
    forall other ensures Get(Put(rs, name, Reservation(c, caller)), other)
      == if other == name then Some(Reservation(c, caller)) else Get(rs, other)
    {
      PutThenGet(rs, name, Reservation(c, caller), other);
    }
  }

  lemma CreateAccounts(c: Config, caller: int, h: Host, name: string, out: Outside)
    requires Accounted(h)
    ensures Accounted(Created(c, caller, h, name, out).host) <==> !LosesTrack(c, caller, h, Create, name, out)
  {
    var t := Created(c, caller, h, name, out).host;
    if ValidName(name) && out.auditReady && Admit(c, caller, out.observed, h.records, name, true).Ok? {
      RollbackRestores(c, caller, out.observed, h.records, name, true);
      ReservationFrames(c, caller, h.records, name);
      AccountedByOthers(h, t, name);
    }
  }

  lemma StartAccounts(c: Config, caller: int, h: Host, name: string, out: Outside)
    requires Accounted(h)
    ensures Accounted(Restarted(c, caller, h, name, out).host) <==> !LosesTrack(c, caller, h, Start, name, out)
  {
    var t := Restarted(c, caller, h, name, out).host;
    if ValidName(name) && out.auditReady && Admit(c, caller, out.observed, h.records, name, false).Ok? {
      RollbackRestores(c, caller, out.observed, h.records, name, false);
      ReservationFrames(c, caller, h.records, name);
      AccountedByOthers(h, t, name);
    }
  }

  lemma StopAccounts(c: Config, caller: int, h: Host, name: string, out: Outside)
    requires Accounted(h) && Sound(c, h.records)
    ensures Accounted(Stopped(c, caller, h, name, out).host)
  {
    DeactivationIsSound(c, h.records, name);
    AccountedByOthers(h, Stopped(c, caller, h, name, out).host, name);
  }

  lemma DeleteAccounts(c: Config, caller: int, h: Host, name: string, confirmation: Option<string>, out: Outside)
    requires Accounted(h) && Sound(c, h.records)
    ensures Accounted(Deleted(c, caller, h, name, confirmation, out).host)
  {
    DeactivationIsSound(c, h.records, name);
    NamesAfterPop(Deactivate(h.records, name), name);
    AccountedByOthers(h, Deleted(c, caller, h, name, confirmation, out).host, name);
  }

  /** An operation keeps every running instance accounted for if and only if it does not lose track. */
  lemma AccountedIffTracked(c: Config, caller: int, h: Host, op: Op, name: string, out: Outside)
    requires Accounted(h) && Sound(c, h.records)
    ensures Accounted(Perform(c, caller, h, op, name, out).host) <==> !LosesTrack(c, caller, h, op, name, out)
  {
    match op
    case Create => CreateAccounts(c, caller, h, name, out);
    case Start => StartAccounts(c, caller, h, name, out);
    case Stop => StopAccounts(c, caller, h, name, out);
    case Delete(confirmation) => DeleteAccounts(c, caller, h, name, confirmation, out);
  }

  // ---- when a record leaves the file ----------------------------------------------------------------

  /** A delete that goes all the way: confirmed, owned, quiet, and with its command and its audit done. */
  predicate DeleteCompletes(c: Config, caller: int, h: Host, name: string, confirmation: Option<string>, out: Outside) {
    && DeleteRuns(c, caller, h, name, confirmation, out)
    && !out.auditFails
  }

  /** A delete that gets its instance deleted, whether or not it can say so afterwards. */
  predicate DeleteRuns(c: Config, caller: int, h: Host, name: string, confirmation: Option<string>, out: Outside) {
    && ValidName(name) && confirmation == Some(name) && Owns(c, caller, h.records, name)
    && (name in h.tasks ==> !out.taskStopFails)
    && out.auditReady && name in h.vms && Runs(out, 0)
  }

  lemma DeactivateFrames(rs: Records, name: string, other: string)
    ensures Get(Deactivate(rs, name), other)
      == if other == name && Get(rs, name).Some? then Some(Get(rs, name).value.(active := false)) else Get(rs, other)
  {
    if Get(rs, name).Some? {
      PutThenGet(rs, name, Get(rs, name).value.(active := false), other);
    }
  }

  lemma ReservingIsFramed(c: Config, caller: int, h: Host, name: string, out: Outside, other: string)
    requires other != name
    ensures Get(Created(c, caller, h, name, out).host.records, other) == Get(h.records, other)
    ensures Get(Restarted(c, caller, h, name, out).host.records, other) == Get(h.records, other)
  {
    ReservationFrames(c, caller, h.records, name);
    if Admit(c, caller, out.observed, h.records, name, true).Ok? {
      RollbackRestores(c, caller, out.observed, h.records, name, true);
    }
    if Admit(c, caller, out.observed, h.records, name, false).Ok? {
      RollbackRestores(c, caller, out.observed, h.records, name, false);
    }
  }

  lemma ReleasingIsFramed(c: Config, caller: int, h: Host, name: string, confirmation: Option<string>, out: Outside,
                          other: string)
    requires Sound(c, h.records) && other != name
    ensures Get(Stopped(c, caller, h, name, out).host.records, other) == Get(h.records, other)
    ensures Get(Deleted(c, caller, h, name, confirmation, out).host.records, other) == Get(h.records, other)
  {
    DeactivateFrames(h.records, name, other);
    DeactivationIsSound(c, h.records, name);
    NamesAfterPop(Deactivate(h.records, name), name);
  }

  lemma InstancesAreFramed(c: Config, caller: int, h: Host, op: Op, name: string, out: Outside, other: string)
    requires other != name
    ensures other in Perform(c, caller, h, op, name, out).host.vms <==> other in h.vms
  {
  }

  /** No operation touches another sandbox's record or instance. */
  lemma OthersAreFramed(c: Config, caller: int, h: Host, op: Op, name: string, out: Outside, other: string)
    requires Sound(c, h.records) && other != name
    ensures var t := Perform(c, caller, h, op, name, out).host;
      && Get(t.records, other) == Get(h.records, other)
      && (other in t.vms <==> other in h.vms)
  {
    InstancesAreFramed(c, caller, h, op, name, out, other);
    match op
    case Create => ReservingIsFramed(c, caller, h, name, out, other);
    case Start => ReservingIsFramed(c, caller, h, name, out, other);
    case Stop => ReleasingIsFramed(c, caller, h, name, None, out, other);
    case Delete(confirmation) => ReleasingIsFramed(c, caller, h, name, confirmation, out, other);
  }

  lemma DeleteForgetsIff(c: Config, caller: int, h: Host, name: string, confirmation: Option<string>, out: Outside)
    requires Sound(c, h.records) && Get(h.records, name).Some?
    ensures Get(Deleted(c, caller, h, name, confirmation, out).host.records, name).None?
      <==> DeleteCompletes(c, caller, h, name, confirmation, out)
  {
    DeactivateFrames(h.records, name, name);
    DeactivationIsSound(c, h.records, name);
    NamesAfterPop(Deactivate(h.records, name), name);
  }

  lemma OthersKeepTheRecord(c: Config, caller: int, h: Host, op: Op, name: string, out: Outside)
    requires Get(h.records, name).Some? && !op.Delete?
    ensures Get(Perform(c, caller, h, op, name, out).host.records, name).Some?
  {
    DeactivateFrames(h.records, name, name);
    ReservationFrames(c, caller, h.records, name);
    if Admit(c, caller, out.observed, h.records, name, false).Ok? {
      RollbackRestores(c, caller, out.observed, h.records, name, false);
    }
  }

  /**
   A record leaves the file if and only if the operation is a delete of that very sandbox that is
   confirmed, owned and quiet and whose command and audit both succeed.
   */
  lemma RecordLeavesIffDeleteCompletes(c: Config, caller: int, h: Host, op: Op, name: string, out: Outside,
                                       victim: string)
    requires Sound(c, h.records) && Get(h.records, victim).Some?
    ensures Get(Perform(c, caller, h, op, name, out).host.records, victim).None?
      <==> op.Delete? && name == victim && DeleteCompletes(c, caller, h, name, op.confirmation, out)
  {
    if name != victim {
      OthersAreFramed(c, caller, h, op, name, out, victim);
    } else if op.Delete? {
      DeleteForgetsIff(c, caller, h, name, op.confirmation, out);
    } else {
      OthersKeepTheRecord(c, caller, h, op, name, out);
    }
  }

  /** A record whose instance is gone. */
  predicate Stranded(h: Host, name: string) {
    name !in h.vms && Get(h.records, name).Some? && !Get(h.records, name).value.active
  }

  /** A delete strands its record exactly when it deletes the instance and cannot write its audit. */
  lemma DeleteStrandsIffUnaudited(c: Config, caller: int, h: Host, name: string, confirmation: Option<string>,
                                  out: Outside)
    requires Sound(c, h.records) && name in h.vms
    ensures Stranded(Deleted(c, caller, h, name, confirmation, out).host, name)
      <==> DeleteRuns(c, caller, h, name, confirmation, out) && out.auditFails
  {
    DeactivateFrames(h.records, name, name);
    DeactivationIsSound(c, h.records, name);
    NamesAfterPop(Deactivate(h.records, name), name);
  }

  lemma OpKeepsStranded(c: Config, caller: int, h: Host, op: Op, name: string, out: Outside, stranded: string)
    requires Sound(c, h.records) && Stranded(h, stranded)
    ensures var t := Perform(c, caller, h, op, name, out).host;
      Stranded(t, stranded) && Get(t.records, stranded) == Get(h.records, stranded)
  {
    if name != stranded {
      OthersAreFramed(c, caller, h, op, name, out, stranded);
    } else if Admit(c, caller, out.observed, h.records, name, false).Ok? {
      RollbackRestores(c, caller, out.observed, h.records, name, false);
    }
  }

  // ---- every sequence of operations ---------------------------------------------------------------

  datatype Call = Call(caller: int, op: Op, name: string, out: Outside)

  function PerformCall(c: Config, h: Host, call: Call): Host {
    Perform(c, call.caller, h, call.op, call.name, call.out).host
  }

  lemma PerformKeepsSound(c: Config, h: Host, call: Call)
    requires ValidConfig(c) && Sound(c, h.records)
    ensures Sound(c, PerformCall(c, h, call).records)
  {
    var isNew := call.op.Create?;
    if ValidName(call.name) && Admit(c, call.caller, call.out.observed, h.records, call.name, isNew).Ok? {
      AdmissionIsSound(c, call.caller, call.out.observed, h.records, call.name, isNew);
      RollbackRestores(c, call.caller, call.out.observed, h.records, call.name, isNew);
    }
    DeactivationIsSound(c, h.records, call.name);
    RemovalIsSound(c, Deactivate(h.records, call.name), call.name);
  }

  /** Any callers' operations, one after the other. */
  function PerformAll(c: Config, h: Host, calls: seq<Call>): Host
    decreases |calls|
  {
    if calls == [] then h
    else PerformCall(c, PerformAll(c, h, calls[..|calls| - 1]), calls[|calls| - 1])
  }

  const EMPTY_HOST := Host([], map[], {}, {})

  lemma {:induction false} AllStaySound(c: Config, h: Host, calls: seq<Call>)
    requires ValidConfig(c) && Sound(c, h.records)
    ensures Sound(c, PerformAll(c, h, calls).records)
    decreases |calls|
  {
    if calls != [] {
      var before := calls[..|calls| - 1];
      AllStaySound(c, h, before);
      PerformKeepsSound(c, PerformAll(c, h, before), calls[|calls| - 1]);
    }
  }

  /** Whatever fails, every saved file stays readable and within the fixed capacity. */
  lemma AllocationsStayWithinCapacity(c: Config, calls: seq<Call>)
    requires ValidConfig(c)
    ensures Sound(c, PerformAll(c, EMPTY_HOST, calls).records)
  {
    AllStaySound(c, EMPTY_HOST, calls);
  }

  /**
   A delete whose audit fails strands its record for good: no sequence of later operations, by any
   caller and on any sandboxes, removes or changes it.
   */
  lemma {:induction false} StrandedRecordStaysForGood(c: Config, h: Host, name: string, calls: seq<Call>)
    requires ValidConfig(c) && Sound(c, h.records) && Stranded(h, name)
    ensures Stranded(PerformAll(c, h, calls), name)
    ensures Get(PerformAll(c, h, calls).records, name) == Get(h.records, name)
    decreases |calls|
  {
    if calls != [] {
      var before, last := calls[..|calls| - 1], calls[|calls| - 1];
      StrandedRecordStaysForGood(c, h, name, before);
      AllStaySound(c, h, before);
      OpKeepsStranded(c, last.caller, PerformAll(c, h, before), last.op, last.name, last.out, name);
    }
  }

  lemma UnauditedDeleteStrandsTheRecord(c: Config, caller: int, h: Host, name: string, out: Outside, calls: seq<Call>)
    requires ValidConfig(c) && Sound(c, h.records)
    requires DeleteRuns(c, caller, h, name, Some(name), out) && out.auditFails
    ensures var t := PerformAll(c, Deleted(c, caller, h, name, Some(name), out).host, calls);
      name !in t.vms && Get(t.records, name) == Some(Get(h.records, name).value.(active := false))
  {
    var t := Deleted(c, caller, h, name, Some(name), out).host;
    DeleteStrandsIffUnaudited(c, caller, h, name, Some(name), out);
    DeactivateFrames(h.records, name, name);
    DeactivationIsSound(c, h.records, name);
    StrandedRecordStaysForGood(c, t, name, calls);
  }

  ghost predicate NeverLosesTrack(c: Config, calls: seq<Call>) {
    forall i :: 0 <= i < |calls| ==>
      !LosesTrack(c, calls[i].caller, PerformAll(c, EMPTY_HOST, calls[..i]), calls[i].op, calls[i].name, calls[i].out)
  }

  ghost predicate AlwaysAccounted(c: Config, calls: seq<Call>) {
    forall i :: 0 <= i <= |calls| ==> Accounted(PerformAll(c, EMPTY_HOST, calls[..i]))
  }

  lemma StepIsAccountedIff(c: Config, calls: seq<Call>, i: nat)
    requires ValidConfig(c) && i < |calls| && Accounted(PerformAll(c, EMPTY_HOST, calls[..i]))
    ensures Accounted(PerformAll(c, EMPTY_HOST, calls[..i + 1]))
      <==> !LosesTrack(c, calls[i].caller, PerformAll(c, EMPTY_HOST, calls[..i]),
                         calls[i].op, calls[i].name, calls[i].out)
  {
    var before := calls[..i];
    assert calls[..i + 1][..i] == before;
    AllocationsStayWithinCapacity(c, before);
    AccountedIffTracked(c, calls[i].caller, PerformAll(c, EMPTY_HOST, before),
                        calls[i].op, calls[i].name, calls[i].out);
  }

  lemma {:induction false} AccountedUpTo(c: Config, calls: seq<Call>, i: nat)
    requires ValidConfig(c) && NeverLosesTrack(c, calls) && i <= |calls|
    ensures Accounted(PerformAll(c, EMPTY_HOST, calls[..i]))
  {
    if i > 0 {
      AccountedUpTo(c, calls, i - 1);
      StepIsAccountedIff(c, calls, i - 1);
    }
  }

  /**
   Every running instance has an active record all through a run if and only if none of its operations
   is an unaudited start or a create whose cleanup fails.
   */
  lemma RunningInstancesAreAccountedIff(c: Config, calls: seq<Call>)
    requires ValidConfig(c)
    ensures AlwaysAccounted(c, calls) <==> NeverLosesTrack(c, calls)
  {
    if NeverLosesTrack(c, calls) {
      forall i | 0 <= i <= |calls| ensures Accounted(PerformAll(c, EMPTY_HOST, calls[..i])) {
        AccountedUpTo(c, calls, i);
      }
    }
    if AlwaysAccounted(c, calls) {
      forall i | 0 <= i < |calls|
        ensures !LosesTrack(c, calls[i].caller, PerformAll(c, EMPTY_HOST, calls[..i]),
                            calls[i].op, calls[i].name, calls[i].out)
      {
        StepIsAccountedIff(c, calls, i);
      }
    }
  }

  // ---- the failures do happen --------------------------------------------------------------------------

  /** A host with room to spare, and nothing failing but what is asked for. */
  function Calm(c: Config): Outside {
    var roomy := Observation(true, Some(c.reserveMemory + c.vmMemory), Some(c.reserveDisk + c.vmDisk), true);
    Outside(true, roomy, None, false, false, false, false)
  }

  predicate HasRoom(c: Config) {
    ValidConfig(c) && c.vmDisk + c.overheadDisk <= c.maxDisk
  }

  lemma FirstCreateIsAdmitted(c: Config, name: string)
    requires HasRoom(c)
    ensures Admit(c, c.operator, Calm(c).observed, [], name, true) == Ok([Entry(name, Reservation(c, c.operator))])
  {
  }

  /** On an empty host: a boot audit that fails, and a launch whose cleanup fails. */
  lemma FailedCreatesDoHappen(c: Config, name: string)
    requires HasRoom(c) && ValidName(name)
    ensures var boot := Created(c, c.operator, EMPTY_HOST, name, Calm(c).(bootAuditFails := true));
      !boot.ok && boot.host.records == [Entry(name, Reservation(c, c.operator))] && boot.host.vms == map[name := true]
    ensures var left := Created(c, c.operator, EMPTY_HOST, name, Calm(c).(failing := Some(1), cleanupFails := true));
      !left.ok && left.host.records == [] && left.host.vms == map[name := true] && !Accounted(left.host)
  {
    FirstCreateIsAdmitted(c, name);
    var left := Created(c, c.operator, EMPTY_HOST, name, Calm(c).(failing := Some(1), cleanupFails := true));
    assert name in left.host.vms && left.host.vms[name];
  }

  /** After a create and a stop: a start whose audit fails runs without an active record. */
  lemma UnauditedStartDoesHappen(c: Config, name: string)
    requires HasRoom(c) && ValidName(name)
    ensures var calls := [Call(c.operator, Create, name, Calm(c)), Call(c.operator, Stop, name, Calm(c)),
                          Call(c.operator, Start, name, Calm(c).(auditFails := true))];
      var h := PerformAll(c, EMPTY_HOST, calls);
      name in h.vms && h.vms[name] && !IsActive(h.records, name) && !Accounted(h)
  {
    var calls := [Call(c.operator, Create, name, Calm(c)), Call(c.operator, Stop, name, Calm(c)),
                  Call(c.operator, Start, name, Calm(c).(auditFails := true))];
    FirstCreateIsAdmitted(c, name);
    var active := Reservation(c, c.operator);
    var created := Host([Entry(name, active)], map[name := true], {}, {});
    var stopped := Host([Entry(name, active.(active := false))], map[name := false], {}, {});
    var started := stopped.(vms := map[name := true]);
    assert Created(c, c.operator, EMPTY_HOST, name, Calm(c)).host == created;
    StopsAfterCreate(c, name);
    StartsUnaudited(c, name);
    assert calls[..2][..1] == calls[..1] && calls[..1][..0] == [];
    assert PerformAll(c, EMPTY_HOST, calls[..1]) == created;
    assert PerformAll(c, EMPTY_HOST, calls[..2]) == stopped;
    assert PerformAll(c, EMPTY_HOST, calls) == started;
    assert name in started.vms && started.vms[name];
  }

  lemma StopsAfterCreate(c: Config, name: string)
    requires HasRoom(c) && ValidName(name)
    ensures var active := Reservation(c, c.operator);
      Stopped(c, c.operator, Host([Entry(name, active)], map[name := true], {}, {}), name, Calm(c)).host
        == Host([Entry(name, active.(active := false))], map[name := false], {}, {})
  {
    var active := Reservation(c, c.operator);
    assert [Entry(name, active)][1..] == [];
    assert Deactivate([Entry(name, active)], name) == [Entry(name, active.(active := false))];
  }

  lemma NothingActive(e: Entry)
    requires !e.record.active
    ensures CpuUsed([e]) == 0 && MemoryUsed([e]) == 0 && DiskUsed([e]) == 0
  {
    assert [e][1..] == [];
    assert CpuUsed([]) == 0 && MemoryUsed([]) == 0 && DiskUsed([]) == 0;
  }

  lemma StartsUnaudited(c: Config, name: string)
    requires HasRoom(c) && ValidName(name)
    ensures var stopped := Host([Entry(name, Reservation(c, c.operator).(active := false))],
                                map[name := false], {}, {});
      Restarted(c, c.operator, stopped, name, Calm(c).(auditFails := true)).host == stopped.(vms := map[name := true])
  {
    var rs := [Entry(name, Reservation(c, c.operator).(active := false))];
    assert rs[1..] == [] && Get(rs, name) == Some(rs[0].record);
    NothingActive(rs[0]);
    assert Admit(c, c.operator, Calm(c).observed, rs, name, false).Ok?;
    RollbackRestores(c, c.operator, Calm(c).observed, rs, name, false);
  }
}
