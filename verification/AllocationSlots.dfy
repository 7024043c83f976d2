/**
 How many sandboxes a host takes (tools/incus_sandbox/helper.py): every record is one VM of the fixed size
 owned by the operator, so the allocator is a counter of slots, and without failures the whole helper is
 a table of stopped and running sandboxes.
 */
module AllocationSlots {
  import opened Wrappers
  import opened Allocation

  // ---- every record is one VM -----------------------------------------------------------------

  predicate IsOneVm(c: Config, r: Record) {
    r.cpu == c.vmCpu && r.memory == c.vmMemory && r.disk == c.vmDisk && r.owner == c.operator
  }

  ghost predicate Sized(c: Config, rs: Records) {
    forall e :: e in rs ==> IsOneVm(c, e.record)
  }

  function NumberActive(rs: Records): nat {
    if rs == [] then 0 else (if rs[0].record.active then 1 else 0) + NumberActive(rs[1..])
  }

  /** `n` VMs of the fixed size are within the bounds of the host. */
  predicate Fit(c: Config, n: nat) {
    && n * c.vmCpu <= c.maxCpu && n * c.vmMemory <= c.maxMemory
    && (n > 0 ==> n * c.vmDisk + c.overheadDisk <= c.maxDisk)
  }

  lemma OneMore(n: nat, size: int)
    ensures (1 + n) * size == size + n * size
  {
  }

  lemma {:induction false} SumsCountVms(c: Config, rs: Records)
    requires Sized(c, rs)
    ensures CpuUsed(rs) == NumberActive(rs) * c.vmCpu && MemoryUsed(rs) == NumberActive(rs) * c.vmMemory
    ensures DiskUsed(rs) == NumberActive(rs) * c.vmDisk
  {
    if rs != [] {
      assert rs[0] in rs;
      SumsCountVms(c, rs[1..]);
      var n := NumberActive(rs[1..]);
      OneMore(n, c.vmCpu);
      OneMore(n, c.vmMemory);
      OneMore(n, c.vmDisk);
    }
  }

  lemma {:induction false} PutEntries(rs: Records, name: string, r: Record)
    ensures forall e :: e in Put(rs, name, r) ==> e in rs || e == Entry(name, r)
  {
    if rs != [] && rs[0].name != name {
      PutEntries(rs[1..], name, r);
    }
  }

  lemma {:induction false} PopEntries(rs: Records, name: string)
    ensures forall e :: e in Pop(rs, name) ==> e in rs
  {
    if rs != [] && rs[0].name != name {
      PopEntries(rs[1..], name);
    }
  }

  lemma {:induction false} GetIsEntry(rs: Records, name: string)
    ensures Get(rs, name).Some? ==> Entry(name, Get(rs, name).value) in rs
  {
    if rs != [] && rs[0].name != name {
      GetIsEntry(rs[1..], name);
    }
  }

  lemma AdmittedIsSized(c: Config, caller: int, o: Observation, rs: Records, name: string, isNew: bool)
    requires Sized(c, rs) && Admit(c, caller, o, rs, name, isNew).Ok?
    ensures Sized(c, Admit(c, caller, o, rs, name, isNew).value)
  {
    PutEntries(rs, name, Reservation(c, caller));
  }

  lemma DeactivatedIsSized(c: Config, rs: Records, name: string)
    requires Sized(c, rs)
    ensures Sized(c, Deactivate(rs, name)) && Sized(c, Pop(Deactivate(rs, name), name)) && Sized(c, Pop(rs, name))
  {
    GetIsEntry(rs, name);
    if Get(rs, name).Some? {
      PutEntries(rs, name, Get(rs, name).value.(active := false));
    }
    PopEntries(rs, name);
    PopEntries(Deactivate(rs, name), name);
  }

  lemma PerformKeepsSized(c: Config, h: Host, call: Call)
    requires Sized(c, h.records)
    ensures Sized(c, PerformCall(c, h, call).records)
  {
    var isNew := call.op.Create?;
    if Admit(c, call.caller, call.out.observed, h.records, call.name, isNew).Ok? {
      AdmittedIsSized(c, call.caller, call.out.observed, h.records, call.name, isNew);
      RollbackRestores(c, call.caller, call.out.observed, h.records, call.name, isNew);
    }
    DeactivatedIsSized(c, h.records, call.name);
  }

  lemma {:induction false} AllStaySized(c: Config, h: Host, calls: seq<Call>)
    requires Sized(c, h.records)
    ensures Sized(c, PerformAll(c, h, calls).records)
    decreases |calls|
  {
    if calls != [] {
      AllStaySized(c, h, calls[..|calls| - 1]);
      PerformKeepsSized(c, PerformAll(c, h, calls[..|calls| - 1]), calls[|calls| - 1]);
    }
  }

  lemma SoundCountFits(c: Config, rs: Records)
    requires ValidConfig(c) && Sound(c, rs) && Sized(c, rs)
    ensures Fit(c, NumberActive(rs))
  {
    SumsCountVms(c, rs);
    if NumberActive(rs) > 0 {
      Positive(NumberActive(rs), c.vmDisk);
    }
  }

  lemma Positive(n: nat, size: int)
    requires n > 0 && size > 0
    ensures n * size > 0
  {
  }

  /**
   Whatever fails, every record is one VM of the operator with exactly the fixed processors, memory and
   disk, and that many times the number of active records is within the bounds of the host.
   */
  lemma EveryRecordIsOneVm(c: Config, calls: seq<Call>)
    requires ValidConfig(c)
    ensures Sized(c, PerformAll(c, EMPTY_HOST, calls).records)
    ensures Fit(c, NumberActive(PerformAll(c, EMPTY_HOST, calls).records))
  {
    AllStaySized(c, EMPTY_HOST, calls);
    AllStaySound(c, EMPTY_HOST, calls);
    SoundCountFits(c, PerformAll(c, EMPTY_HOST, calls).records);
  }

  // ---- the instances that run -----------------------------------------------------------------------

  function RunningNames(vms: map<string, bool>): set<string> {
    set name | name in vms && vms[name]
  }

  function ActiveNames(rs: Records): set<string> {
    if rs == [] then {} else (if rs[0].record.active then {rs[0].name} else {}) + ActiveNames(rs[1..])
  }

  lemma {:induction false} ActiveNamesAreNames(rs: Records, name: string)
    requires name in ActiveNames(rs)
    ensures exists i :: 0 <= i < |rs| && rs[i].name == name
  {
    if rs[0].name != name {
      ActiveNamesAreNames(rs[1..], name);
      var i :| 0 <= i < |rs[1..]| && rs[1..][i].name == name;
      assert rs[i + 1].name == name;
    }
  }

  lemma FirstNameIsNew(rs: Records)
    requires UniqueNames(rs) && rs != []
    ensures UniqueNames(rs[1..]) && rs[0].name !in ActiveNames(rs[1..])
  {
    if rs[0].name in ActiveNames(rs[1..]) {
      ActiveNamesAreNames(rs[1..], rs[0].name);
    }
  }

  lemma {:induction false} ActiveNamesMeaning(rs: Records, name: string)
    requires UniqueNames(rs)
    ensures name in ActiveNames(rs) <==> IsActive(rs, name)
  {
    if rs != [] {
      FirstNameIsNew(rs);
      ActiveNamesMeaning(rs[1..], name);
    }
  }

  lemma {:induction false} ActiveNamesCount(rs: Records)
    requires UniqueNames(rs)
    ensures |ActiveNames(rs)| == NumberActive(rs)
  {
    if rs != [] {
      FirstNameIsNew(rs);
      ActiveNamesCount(rs[1..]);
    }
  }

  lemma {:induction false} FewerOf(a: set<string>, b: set<string>)
    requires a <= b
    ensures |a| <= |b|
  {
    if a != {} {
      var x :| x in a;
      FewerOf(a - {x}, b - {x});
    }
  }

  lemma FewerFit(c: Config, few: nat, many: nat)
    requires ValidConfig(c) && few <= many && Fit(c, many)
    ensures Fit(c, few)
  {
    assert few * c.vmCpu <= many * c.vmCpu && few * c.vmMemory <= many * c.vmMemory;
    assert few * c.vmDisk <= many * c.vmDisk;
  }

  /**
   In a run without an unaudited start or a failed cleanup, the instances that really run are within
   the bounds of the host.
   */
  lemma RunningInstancesFit(c: Config, calls: seq<Call>)
    requires ValidConfig(c) && NeverLosesTrack(c, calls)
    ensures Fit(c, |RunningNames(PerformAll(c, EMPTY_HOST, calls).vms)|)
  {
    var h := PerformAll(c, EMPTY_HOST, calls);
    EveryRecordIsOneVm(c, calls);
    AllStaySound(c, EMPTY_HOST, calls);
    AccountedUpTo(c, calls, |calls|);
    assert calls[..|calls|] == calls;
    ActiveNamesCount(h.records);
    forall name | name in RunningNames(h.vms) ensures name in ActiveNames(h.records) {
      ActiveNamesMeaning(h.records, name);
    }
    FewerOf(RunningNames(h.vms), ActiveNames(h.records));
    FewerFit(c, |RunningNames(h.vms)|, NumberActive(h.records));
  }

  // ---- exactly when a request is admitted ------------------------------------------------------------

  /** The host reports current facts with room for the reserve and one VM, and the managed network. */
  predicate HostHasRoom(c: Config, o: Observation) {
    && o.current && o.network
    && o.memory.Some? && o.memory.value >= 0 && o.memory.value >= c.reserveMemory + c.vmMemory
    && o.disk.Some? && o.disk.value >= 0 && o.disk.value >= c.reserveDisk + c.vmDisk
  }

  /**
   A request is admitted if and only if the host has room, one more VM fits beside the active ones, the
   caller is the operator, and a create finds no record, a start an inactive one.
   */
  lemma AdmittedIffOneMoreFits(c: Config, caller: int, o: Observation, rs: Records, name: string, isNew: bool)
    requires ValidConfig(c) && Sized(c, rs)
    ensures Admit(c, caller, o, rs, name, isNew).Ok? <==>
      && HostHasRoom(c, o) && Fit(c, NumberActive(rs) + 1) && caller == c.operator
      && (if isNew then Get(rs, name).None? else Get(rs, name).Some? && !Get(rs, name).value.active)
  {
    SumsCountVms(c, rs);
  }

  // ---- without failures: a table of sandboxes -----------------------------------------------------------

  /** Every command, check and audit write succeeds, and the host always has room for one more. */
  predicate NothingFails(c: Config, out: Outside) {
    && out.auditReady && HostHasRoom(c, out.observed) && out.failing.None?
    && !out.auditFails && !out.bootAuditFails && !out.cleanupFails && !out.taskStopFails
  }

  /** Which sandboxes exist, and which of them run. */
  type Table = map<string, bool>

  predicate Allowed(c: Config, m: Table, caller: int, op: Op, name: string) {
    && caller == c.operator && ValidName(name)
    && match op
       case Create => name !in m && Fit(c, |RunningNames(m)| + 1)
       case Start => name in m && !m[name] && Fit(c, |RunningNames(m)| + 1)
       case Stop => name in m
       case Delete(confirmation) => name in m && confirmation == Some(name)
  }

  function Then(c: Config, m: Table, caller: int, op: Op, name: string): Table {
    if !Allowed(c, m, caller, op, name) then m
    else
      match op
      case Create => m[name := true]
      case Start => m[name := true]
      case Stop => m[name := false]
      case Delete(_) => m - {name}
  }

  function ThenAll(c: Config, m: Table, calls: seq<Call>): Table
    decreases |calls|
  {
    if calls == [] then m
    else
      var last := calls[|calls| - 1];
      Then(c, ThenAll(c, m, calls[..|calls| - 1]), last.caller, last.op, last.name)
  }

  /** The host's instances are the table, and its records say the same. */
  ghost predicate Shows(c: Config, h: Host, m: Table) {
    && h.vms == m && Sized(c, h.records) && UniqueNames(h.records)
    && forall name ::
           (Get(h.records, name).Some? <==> name in m) && (IsActive(h.records, name) <==> name in m && m[name])
  }

  lemma ShownCount(c: Config, h: Host, m: Table)
    requires Shows(c, h, m)
    ensures NumberActive(h.records) == |RunningNames(m)|
  {
    ActiveNamesCount(h.records);
    forall name ensures name in ActiveNames(h.records) <==> name in RunningNames(m) {
      ActiveNamesMeaning(h.records, name);
    }
    assert ActiveNames(h.records) == RunningNames(m);
  }

  lemma ReservedShows(c: Config, h: Host, m: Table, name: string, t: Host)
    requires Shows(c, h, m) && t == h.(records := Put(h.records, name, Reservation(c, c.operator)),
                                       vms := h.vms[name := true], tasks := t.tasks)
    ensures Shows(c, t, m[name := true])
  {
    PutEntries(h.records, name, Reservation(c, c.operator));
    NamesAfterPut(h.records, name, Reservation(c, c.operator));
    ReservationFrames(c, c.operator, h.records, name);
  }

  lemma ReleasedShows(c: Config, h: Host, m: Table, name: string, t: Host)
    requires Shows(c, h, m) && name in m
    requires t == h.(records := Deactivate(h.records, name), vms := h.vms[name := false], tasks := t.tasks)
    ensures Shows(c, t, m[name := false])
  {
    var r := Get(h.records, name).value.(active := false);
    DeactivatedIsSized(c, h.records, name);
    NamesAfterPut(h.records, name, r);
    forall other ensures Get(t.records, other) == if other == name then Some(r) else Get(h.records, other) {
      PutThenGet(h.records, name, r, other);
    }
  }

  lemma DeletedShows(c: Config, h: Host, m: Table, name: string, t: Host)
    requires Shows(c, h, m) && name in m
    requires t == h.(records := Pop(Deactivate(h.records, name), name), vms := h.vms - {name},
                     tasks := t.tasks, bindings := t.bindings)
    ensures Shows(c, t, m - {name})
  {
    var r := Get(h.records, name).value.(active := false);
    DeactivatedIsSized(c, h.records, name);
    NamesAfterPut(h.records, name, r);
    NamesAfterPop(Deactivate(h.records, name), name);
    forall other | other != name ensures Get(t.records, other) == Get(h.records, other) {
      PutThenGet(h.records, name, r, other);
    }
  }

  lemma OwnedIffShown(c: Config, h: Host, m: Table, caller: int, name: string)
    requires Shows(c, h, m)
    ensures Owns(c, caller, h.records, name) <==> caller == c.operator && name in m
  {
    GetIsEntry(h.records, name);
  }

  lemma ReserveIsThen(c: Config, h: Host, m: Table, caller: int, op: Op, name: string, out: Outside)
    requires ValidConfig(c) && Shows(c, h, m) && NothingFails(c, out) && (op.Create? || op.Start?)
    ensures Shows(c, Perform(c, caller, h, op, name, out).host, Then(c, m, caller, op, name))
    ensures Perform(c, caller, h, op, name, out).ok <==> Allowed(c, m, caller, op, name)
  {
    ShownCount(c, h, m);
    AdmittedIffOneMoreFits(c, caller, out.observed, h.records, name, op.Create?);
    if Allowed(c, m, caller, op, name) {
      ReservedShows(c, h, m, name, Perform(c, caller, h, op, name, out).host);
    }
  }

  lemma StopIsThen(c: Config, h: Host, m: Table, caller: int, op: Op, name: string, out: Outside)
    requires Shows(c, h, m) && NothingFails(c, out) && (op.Stop? || op.Delete?)
    ensures Shows(c, Perform(c, caller, h, op, name, out).host, Then(c, m, caller, op, name))
    ensures Perform(c, caller, h, op, name, out).ok <==> Allowed(c, m, caller, op, name)
  {
    OwnedIffShown(c, h, m, caller, name);
    if Allowed(c, m, caller, op, name) {
      if op.Stop? {
        ReleasedShows(c, h, m, name, Perform(c, caller, h, op, name, out).host);
      } else {
        DeletedShows(c, h, m, name, Perform(c, caller, h, op, name, out).host);
      }
    }
  }

  lemma CallIsThen(c: Config, h: Host, m: Table, call: Call)
    requires ValidConfig(c) && Shows(c, h, m) && NothingFails(c, call.out)
    ensures Shows(c, PerformCall(c, h, call), Then(c, m, call.caller, call.op, call.name))
    ensures Perform(c, call.caller, h, call.op, call.name, call.out).ok
      <==> Allowed(c, m, call.caller, call.op, call.name)
  {
    if call.op.Create? || call.op.Start? {
      ReserveIsThen(c, h, m, call.caller, call.op, call.name, call.out);
    } else {
      StopIsThen(c, h, m, call.caller, call.op, call.name, call.out);
    }
  }

  /**
   Without failures the helper is the table: after any callers' operations exactly its sandboxes exist,
   exactly its running ones run and are active, and the next operation succeeds if and only if the
   table allows it.
   */
  lemma {:induction false} UnfailingHelperIsTheTable(c: Config, calls: seq<Call>, next: Call)
    requires ValidConfig(c) && NothingFails(c, next.out)
    requires forall call :: call in calls ==> NothingFails(c, call.out)
    ensures Shows(c, PerformAll(c, EMPTY_HOST, calls), ThenAll(c, map[], calls))
    ensures Perform(c, next.caller, PerformAll(c, EMPTY_HOST, calls), next.op, next.name, next.out).ok
      <==> Allowed(c, ThenAll(c, map[], calls), next.caller, next.op, next.name)
    decreases |calls|
  {
    if calls != [] {
      var before, last := calls[..|calls| - 1], calls[|calls| - 1];
      UnfailingHelperIsTheTable(c, before, last);
      CallIsThen(c, PerformAll(c, EMPTY_HOST, before), ThenAll(c, map[], before), last);
    }
    CallIsThen(c, PerformAll(c, EMPTY_HOST, calls), ThenAll(c, map[], calls), next);
  }

  /** A successful start, stop or delete leaves no task session of its sandbox, and a delete no binding. */
  lemma SuccessClearsTheSession(c: Config, caller: int, h: Host, op: Op, name: string, out: Outside)
    requires Perform(c, caller, h, op, name, out).ok
    ensures var t := Perform(c, caller, h, op, name, out).host;
      && (forall other :: other in t.tasks <==> other in h.tasks && (other != name || op.Create?))
      && (forall other :: other in t.bindings <==> other in h.bindings && (other != name || !op.Delete?))
  {
  }

  /** No operation touches another sandbox's instance, and a create leaves an existing instance of its name alone. */
  lemma OtherInstancesAreFramed(c: Config, caller: int, h: Host, op: Op, name: string, out: Outside, other: string)
    requires other != name || (op.Create? && name in h.vms)
    ensures var t := Perform(c, caller, h, op, name, out).host;
      (other in t.vms <==> other in h.vms) && (other in h.vms ==> t.vms[other] == h.vms[other])
  {
  }
}
