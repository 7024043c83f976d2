/**
 Transfers, task starts and stops, and lifecycle operations of one host, interleaved step by step
 under the per-sandbox state lock and the allocations lock (tools/incus_sandbox/helper.py,
 task_environment.py and transfer.py). A process may be killed between any two steps.
 */
module SandboxRuns {
  import opened Wrappers
  import opened Allocation

  /** What a source packet binds: the repository and the digest of its declaration. */
  datatype Binding = Binding(repository: string, digest: string)

  /** Where a process stands. All but CreateReserved hold the state lock of their sandbox. */
  datatype Pc =
    | TransferHolds(packet: Option<Binding>)
    | TransferCleared(packet: Option<Binding>)
    | TaskHolds(request: Binding)
    | TaskAuthorized(request: Binding)
    | TaskMatched(request: Binding)
    | TaskStopHolds(restart: Option<Binding>)
    | TaskStopAuthorized(restart: Option<Binding>)
    | VmStartHolds
    | VmStartReserved(previous: Record)
    | VmStartCommitted
    | VmStopHolds(delete: bool)
    | VmStopQuiet(delete: bool)
    | VmDown(delete: bool)
    | VmReleased(delete: bool)
    | Forgotten
    | Unbound
    | CreateReserved

  datatype Process = Process(sandbox: string, caller: int, pc: Pc)

  datatype Request =
    | Transfer(packet: Option<Binding>)
    | TaskStart(request: Binding)
    | TaskStop
    | TaskRestart(request: Binding)
    | VmStart
    | VmStop
    | VmDelete
    | VmCreate

  /** The allocations file, the source bindings and task state files by sandbox, and the processes. */
  datatype State = State(records: Records, bindings: map<string, Binding>, tasks: map<string, Binding>,
                         processes: map<nat, Process>)

  /** `ok` is the outside world's answer to the step: the command, check or write succeeds. */
  datatype Action =
    | Begin(pid: nat, sandbox: string, caller: int, request: Request, observed: Observation)
    | Advance(pid: nat, ok: bool, observed: Observation)
    | Kill(pid: nat)

  predicate HoldsState(pc: Pc) {
    !pc.CreateReserved?
  }

  predicate HoldsAllocations(pc: Pc) {
    pc.CreateReserved? || pc.VmStartReserved?
  }

  /** The steps that read or write the allocations file must find its lock free. */
  predicate NeedsAllocations(pc: Pc) {
    || pc.TaskHolds? || pc.TaskStopHolds? || pc.VmStartHolds? || pc.VmStopHolds? || pc.VmDown?
    || (pc.VmReleased? && pc.delete)
  }

  predicate StateLockFree(s: State, sandbox: string) {
    forall p :: p in s.processes ==> !(s.processes[p].sandbox == sandbox && HoldsState(s.processes[p].pc))
  }

  predicate AllocationsFree(s: State) {
    forall p :: p in s.processes ==> !HoldsAllocations(s.processes[p].pc)
  }

  predicate Enabled(s: State, a: Action) {
    match a
    case Begin(pid, sandbox, _, request, _) =>
      && pid !in s.processes && ValidName(sandbox)
      && (if request.VmCreate? then AllocationsFree(s) else StateLockFree(s, sandbox))
    case Advance(pid, _, _) =>
      pid in s.processes && (NeedsAllocations(s.processes[pid].pc) ==> AllocationsFree(s))
    case Kill(pid) => pid in s.processes
  }

  function FirstPc(request: Request): Pc
    requires !request.VmCreate?
  {
    match request
    case Transfer(packet) => TransferHolds(packet)
    case TaskStart(r) => TaskHolds(r)
    case TaskStop => TaskStopHolds(None)
    case TaskRestart(r) => TaskStopHolds(Some(r))
    case VmStart => VmStartHolds
    case VmStop => VmStopHolds(false)
    case VmDelete => VmStopHolds(true)
  }

  function Started(c: Config, s: State, pid: nat, sandbox: string, caller: int, request: Request,
                   o: Observation): State {
    if !request.VmCreate? then s.(processes := s.processes[pid := Process(sandbox, caller, FirstPc(request))])
    else
      match Admit(c, caller, o, s.records, sandbox, true)
      case Err(_) => s
      case Ok(reserved) =>
        s.(records := reserved, processes := s.processes[pid := Process(sandbox, caller, CreateReserved)])
  }

  function At(s: State, pid: nat, pc: Pc): State
    requires pid in s.processes
  {
    s.(processes := s.processes[pid := s.processes[pid].(pc := pc)])
  }

  /** Returning, raising and dying all release the process's locks. */
  function Gone(s: State, pid: nat): State {
    s.(processes := s.processes - {pid})
  }

  predicate ActiveOwner(c: Config, s: State, p: Process) {
    p.caller == c.operator && IsActive(s.records, p.sandbox) && Get(s.records, p.sandbox).value.owner == p.caller
  }

  /** Steps of a source transfer. */
  function TransferStep(s: State, pid: nat, ok: bool): State
    requires pid in s.processes && (s.processes[pid].pc.TransferHolds? || s.processes[pid].pc.TransferCleared?)
  {
    var name := s.processes[pid].sandbox;
    match s.processes[pid].pc
    case TransferHolds(packet) =>
      if !ok || name in s.tasks then Gone(s, pid)
      else At(s.(bindings := s.bindings - {name}, tasks := s.tasks - {name}), pid, TransferCleared(packet))
    case TransferCleared(packet) =>
      if !ok || packet.None? then Gone(s, pid)
      else Gone(s.(bindings := s.bindings[name := packet.value]), pid)
  }

  predicate IsTaskPc(pc: Pc) {
    pc.TaskHolds? || pc.TaskAuthorized? || pc.TaskMatched? || pc.TaskStopHolds? || pc.TaskStopAuthorized?
  }

  /** Steps of a task start, stop or restart. */
  function TaskStep(c: Config, s: State, pid: nat, ok: bool): State
    requires pid in s.processes && IsTaskPc(s.processes[pid].pc)
  {
    var p := s.processes[pid];
    match p.pc
    case TaskHolds(r) => if ok && ActiveOwner(c, s, p) then At(s, pid, TaskAuthorized(r)) else Gone(s, pid)
    case TaskAuthorized(r) =>
      if ok && p.sandbox in s.bindings && s.bindings[p.sandbox] == r then At(s, pid, TaskMatched(r)) else Gone(s, pid)
    case TaskMatched(r) => Gone(if ok then s.(tasks := s.tasks[p.sandbox := r]) else s, pid)
    case TaskStopHolds(r) => if ok && ActiveOwner(c, s, p) then At(s, pid, TaskStopAuthorized(r)) else Gone(s, pid)
    case TaskStopAuthorized(r) =>
      if !ok then Gone(s, pid)
      else
        var stopped := s.(tasks := s.tasks - {p.sandbox});
        if r.None? then Gone(stopped, pid) else At(stopped, pid, TaskHolds(r.value))
  }

  predicate IsStartPc(pc: Pc) {
    pc.VmStartHolds? || pc.VmStartReserved? || pc.VmStartCommitted? || pc.CreateReserved?
  }

  /** Steps of create and start: reserve, run the commands, commit or roll back. */
  function ReserveStep(c: Config, s: State, pid: nat, ok: bool, o: Observation): State
    requires pid in s.processes && IsStartPc(s.processes[pid].pc)
  {
    var p := s.processes[pid];
    match p.pc
    case VmStartHolds =>
      if !ok then Gone(s, pid)
      else (
        match Admit(c, p.caller, o, s.records, p.sandbox, false)
        case Err(_) => Gone(s, pid)
        case Ok(reserved) => At(s.(records := reserved), pid, VmStartReserved(Get(s.records, p.sandbox).value)))
    case VmStartReserved(previous) =>
      if ok then At(s, pid, VmStartCommitted)
      else Gone(s.(records := Put(s.records, p.sandbox, previous)), pid)
    case VmStartCommitted => Gone(s.(tasks := s.tasks - {p.sandbox}), pid)
    case CreateReserved => Gone(if ok then s else s.(records := Pop(s.records, p.sandbox)), pid)
  }

  predicate IsStopPc(pc: Pc) {
    pc.VmStopHolds? || pc.VmStopQuiet? || pc.VmDown? || pc.VmReleased? || pc.Forgotten? || pc.Unbound?
  }

  /** Steps of stop and delete: quiet the task, run the command, release, and for a delete forget. */
  function StopStep(c: Config, s: State, pid: nat, ok: bool): State
    requires pid in s.processes && IsStopPc(s.processes[pid].pc)
  {
    var p := s.processes[pid];
    match p.pc
    case VmStopHolds(delete) =>
      if !ok || !Owns(c, p.caller, s.records, p.sandbox) then Gone(s, pid)
      else At(s.(tasks := s.tasks - {p.sandbox}), pid, VmStopQuiet(delete))
    case VmStopQuiet(delete) => if ok then At(s, pid, VmDown(delete)) else Gone(s, pid)
    case VmDown(delete) => At(s.(records := Deactivate(s.records, p.sandbox)), pid, VmReleased(delete))
    case VmReleased(delete) =>
      if ok && delete then At(s.(records := Pop(s.records, p.sandbox)), pid, Forgotten) else Gone(s, pid)
    case Forgotten => At(s.(bindings := s.bindings - {p.sandbox}), pid, Unbound)
    case Unbound => Gone(s.(tasks := s.tasks - {p.sandbox}), pid)
  }

  function Apply(c: Config, s: State, a: Action): State
    requires Enabled(s, a)
  {
    match a
    case Begin(pid, sandbox, caller, request, o) => Started(c, s, pid, sandbox, caller, request, o)
    case Kill(pid) => Gone(s, pid)
    case Advance(pid, ok, o) =>
      var pc := s.processes[pid].pc;
      if pc.TransferHolds? || pc.TransferCleared? then TransferStep(s, pid, ok)
      else if IsTaskPc(pc) then TaskStep(c, s, pid, ok)
      else if IsStartPc(pc) then ReserveStep(c, s, pid, ok, o)
      else StopStep(c, s, pid, ok)
  }

  /** An action whose lock is taken, or whose process is gone, waits. */
  function Step(c: Config, s: State, a: Action): State {
    if Enabled(s, a) then Apply(c, s, a) else s
  }

  function Run(c: Config, s: State, actions: seq<Action>): State
    decreases |actions|
  {
    if actions == [] then s else Step(c, Run(c, s, actions[..|actions| - 1]), actions[|actions| - 1])
  }

  function Initial(): State {
    State([], map[], map[], map[])
  }

  // ---- the invariant -------------------------------------------------------------------------

  ghost predicate Conflict(p: Process, q: Process) {
    || (p.sandbox == q.sandbox && HoldsState(p.pc) && HoldsState(q.pc))
    || (HoldsAllocations(p.pc) && HoldsAllocations(q.pc))
  }

  ghost predicate Exclusive(s: State) {
    forall i, j {:trigger s.processes[i], s.processes[j]} ::
      i in s.processes && j in s.processes && i != j ==> !Conflict(s.processes[i], s.processes[j])
  }

  /** A pending create cannot meet a task start of its sandbox that is past authorization. */
  ghost predicate CreatesAlone(s: State) {
    forall i, j {:trigger s.processes[i], s.processes[j]} ::
      (i in s.processes && j in s.processes && s.processes[i].sandbox == s.processes[j].sandbox
       && s.processes[i].pc.CreateReserved?) ==> !PastAuthorization(s.processes[j].pc)
  }

  predicate PastAuthorization(pc: Pc) {
    pc.TaskAuthorized? || pc.TaskMatched?
  }

  /** The pcs at which the sandbox has no task state file. */
  predicate IsQuiet(pc: Pc) {
    || pc.TransferCleared? || pc.VmStartReserved? || pc.VmStartCommitted? || pc.VmStopQuiet? || pc.VmDown?
    || pc.VmReleased? || pc.Forgotten? || pc.Unbound? || pc.CreateReserved?
  }

  /** What a process knows at its pc. */
  ghost predicate Knows(s: State, p: Process) {
    && ValidName(p.sandbox)
    && (PastAuthorization(p.pc) ==> IsActive(s.records, p.sandbox))
    && (p.pc.TaskMatched? ==> p.sandbox in s.bindings && s.bindings[p.sandbox] == p.pc.request)
    && (IsQuiet(p.pc) ==> p.sandbox !in s.tasks)
    && (p.pc.Unbound? || p.pc.TransferCleared? ==> p.sandbox !in s.bindings)
    && (p.pc.VmStartReserved? ==> ValidEntry(Entry(p.sandbox, p.pc.previous)) && !p.pc.previous.active)
  }

  ghost predicate ProcessesKnow(s: State) {
    forall i :: i in s.processes ==> Knows(s, s.processes[i])
  }

  /** A task state file rests on a binding with the same content and on an active record. */
  ghost predicate TasksAreBacked(s: State) {
    forall name :: name in s.tasks ==>
      name in s.bindings && s.bindings[name] == s.tasks[name] && IsActive(s.records, name)
  }

  ghost predicate Inv(c: Config, s: State) {
    Exclusive(s) && CreatesAlone(s) && ProcessesKnow(s) && TasksAreBacked(s) && Sound(c, s.records)
  }

  // ---- preservation: the records ----------------------------------------------------------------

  lemma RollbackIsSound(c: Config, rs: Records, name: string, previous: Record)
    requires Sound(c, rs) && ValidEntry(Entry(name, previous)) && !previous.active
    ensures Sound(c, Put(rs, name, previous))
    ensures forall other ::
      Get(Put(rs, name, previous), other) == if other == name then Some(previous) else Get(rs, other)
  {
    PutSums(rs, name, previous);
    NamesAfterPut(rs, name, previous);
    GetIsValid(rs, name);
    DiskIsNonNegative(Put(rs, name, previous));
    forall other ensures Get(Put(rs, name, previous), other)
        == if other == name then Some(previous) else Get(rs, other) {
      PutThenGet(rs, name, previous, other);
    }
  }

  /** How one step may treat the allocations: only one sandbox's record changes, and the file stays sound. */
  ghost predicate RecordsChangeOnly(c: Config, before: Records, after: Records, name: string) {
    && Sound(c, after)
    && forall other :: other != name ==> Get(after, other) == Get(before, other)
  }

  lemma StepChangesOneRecord(c: Config, s: State, a: Action)
    requires ValidConfig(c) && Inv(c, s) && Enabled(s, a)
    ensures RecordsChangeOnly(c, s.records, Apply(c, s, a).records, SandboxOf(s, a))
  {
    var name := SandboxOf(s, a);
    match a
    case Begin(_, _, caller, request, o) =>
      if request.VmCreate? && Admit(c, caller, o, s.records, name, true).Ok? {
        AdmissionIsSound(c, caller, o, s.records, name, true);
        ReservationFrames(c, caller, s.records, name);
      }
    case Kill(_) =>
    case Advance(pid, ok, o) => AdvanceChangesOneRecord(c, s, pid, ok, o);
  }

  function SandboxOf(s: State, a: Action): string {
    match a
    case Begin(_, sandbox, _, _, _) => sandbox
    case Advance(pid, _, _) => if pid in s.processes then s.processes[pid].sandbox else ""
    case Kill(pid) => if pid in s.processes then s.processes[pid].sandbox else ""
  }

  lemma ReserveChangesOneRecord(c: Config, s: State, pid: nat, ok: bool, o: Observation)
    requires ValidConfig(c) && Inv(c, s) && pid in s.processes && IsStartPc(s.processes[pid].pc)
    ensures RecordsChangeOnly(c, s.records, ReserveStep(c, s, pid, ok, o).records, s.processes[pid].sandbox)
  {
    var p := s.processes[pid];
    assert Knows(s, p);
    match p.pc
    case VmStartHolds =>
      if Admit(c, p.caller, o, s.records, p.sandbox, false).Ok? {
        AdmissionIsSound(c, p.caller, o, s.records, p.sandbox, false);
        ReservationFrames(c, p.caller, s.records, p.sandbox);
      }
    case VmStartReserved(previous) => RollbackIsSound(c, s.records, p.sandbox, previous);
    case VmStartCommitted =>
    case CreateReserved =>
      RemovalIsSound(c, s.records, p.sandbox);
      NamesAfterPop(s.records, p.sandbox);
  }

  lemma StopChangesOneRecord(c: Config, s: State, pid: nat, ok: bool)
    requires Inv(c, s) && pid in s.processes && IsStopPc(s.processes[pid].pc)
    ensures RecordsChangeOnly(c, s.records, StopStep(c, s, pid, ok).records, s.processes[pid].sandbox)
  {
    var name := s.processes[pid].sandbox;
    DeactivationIsSound(c, s.records, name);
    RemovalIsSound(c, s.records, name);
    NamesAfterPop(s.records, name);
  }

  lemma AdvanceChangesOneRecord(c: Config, s: State, pid: nat, ok: bool, o: Observation)
    requires ValidConfig(c) && Inv(c, s) && Enabled(s, Advance(pid, ok, o))
    ensures RecordsChangeOnly(c, s.records, Apply(c, s, Advance(pid, ok, o)).records, s.processes[pid].sandbox)
  {
    var pc := s.processes[pid].pc;
    if IsStartPc(pc) {
      ReserveChangesOneRecord(c, s, pid, ok, o);
    } else if IsStopPc(pc) {
      StopChangesOneRecord(c, s, pid, ok);
    }
  }

  // ---- preservation: locks ---------------------------------------------------------------------------

  lemma CreateIsAlone(c: Config, s: State, sandbox: string)
    requires Inv(c, s) && !IsActive(s.records, sandbox)
    ensures forall j :: j in s.processes && s.processes[j].sandbox == sandbox ==> !PastAuthorization(s.processes[j].pc)
  {
    forall j | j in s.processes && s.processes[j].sandbox == sandbox ensures !PastAuthorization(s.processes[j].pc) {
      assert Knows(s, s.processes[j]);
    }
  }

  lemma NewProcessKeepsLocks(s: State, t: State, pid: nat)
    requires Exclusive(s) && CreatesAlone(s) && pid !in s.processes && pid in t.processes
    requires t.processes == s.processes[pid := t.processes[pid]]
    requires var p := t.processes[pid];
      if p.pc.CreateReserved? then AllocationsFree(s) else StateLockFree(s, p.sandbox) && !HoldsAllocations(p.pc)
    requires !PastAuthorization(t.processes[pid].pc)
    requires t.processes[pid].pc.CreateReserved? ==>
      forall j :: j in s.processes && s.processes[j].sandbox == t.processes[pid].sandbox
        ==> !PastAuthorization(s.processes[j].pc)
    ensures Exclusive(t) && CreatesAlone(t)
  {
  }

  lemma BeginKeepsLocks(c: Config, s: State, pid: nat, sandbox: string, caller: int, request: Request, o: Observation)
    requires Inv(c, s) && Enabled(s, Begin(pid, sandbox, caller, request, o))
    ensures Exclusive(Apply(c, s, Begin(pid, sandbox, caller, request, o)))
    ensures CreatesAlone(Apply(c, s, Begin(pid, sandbox, caller, request, o)))
  {
    var t := Started(c, s, pid, sandbox, caller, request, o);
    if pid in t.processes {
      if request.VmCreate? {
        CreateIsAlone(c, s, sandbox);
      }
      NewProcessKeepsLocks(s, t, pid);
    }
  }

  /** How one process may move: it keeps its locks, and takes the allocations lock only from a pc that needs it. */
  ghost predicate Moves(p: Process, q: Process) {
    && q.sandbox == p.sandbox && HoldsState(p.pc) && !q.pc.CreateReserved?
    && (HoldsAllocations(q.pc) ==> NeedsAllocations(p.pc))
    && (PastAuthorization(q.pc) ==> PastAuthorization(p.pc) || NeedsAllocations(p.pc))
  }

  ghost predicate OnlyMoves(s: State, t: State, pid: nat) {
    && (forall i :: i != pid ==> (i in t.processes <==> i in s.processes))
    && (forall i :: i != pid && i in t.processes ==> t.processes[i] == s.processes[i])
    && (pid in t.processes ==> pid in s.processes && Moves(s.processes[pid], t.processes[pid]))
  }

  lemma TransferOnlyMoves(s: State, pid: nat, ok: bool)
    requires pid in s.processes && (s.processes[pid].pc.TransferHolds? || s.processes[pid].pc.TransferCleared?)
    ensures OnlyMoves(s, TransferStep(s, pid, ok), pid)
  {
  }

  lemma TaskOnlyMoves(c: Config, s: State, pid: nat, ok: bool)
    requires pid in s.processes && IsTaskPc(s.processes[pid].pc)
    ensures OnlyMoves(s, TaskStep(c, s, pid, ok), pid)
  {
  }

  lemma ReserveOnlyMoves(c: Config, s: State, pid: nat, ok: bool, o: Observation)
    requires pid in s.processes && IsStartPc(s.processes[pid].pc)
    ensures OnlyMoves(s, ReserveStep(c, s, pid, ok, o), pid)
  {
  }

  lemma StopOnlyMoves(c: Config, s: State, pid: nat, ok: bool)
    requires pid in s.processes && IsStopPc(s.processes[pid].pc)
    ensures OnlyMoves(s, StopStep(c, s, pid, ok), pid)
  {
  }

  lemma AdvanceOnlyMoves(c: Config, s: State, pid: nat, ok: bool, o: Observation)
    requires Enabled(s, Advance(pid, ok, o))
    ensures OnlyMoves(s, Apply(c, s, Advance(pid, ok, o)), pid)
  {
    var pc := s.processes[pid].pc;
    if pc.TransferHolds? || pc.TransferCleared? {
      TransferOnlyMoves(s, pid, ok);
    } else if IsTaskPc(pc) {
      TaskOnlyMoves(c, s, pid, ok);
    } else if IsStartPc(pc) {
      ReserveOnlyMoves(c, s, pid, ok, o);
    } else {
      StopOnlyMoves(c, s, pid, ok);
    }
  }

  lemma MovesKeepLocks(s: State, t: State, pid: nat)
    requires Exclusive(s) && CreatesAlone(s) && OnlyMoves(s, t, pid)
    requires pid in t.processes && NeedsAllocations(s.processes[pid].pc) ==> AllocationsFree(s)
    ensures Exclusive(t) && CreatesAlone(t)
  {
    forall i, j | i in t.processes && j in t.processes && i != j ensures !Conflict(t.processes[i], t.processes[j]) {
      assert !Conflict(s.processes[i], s.processes[j]);
    }
  }

  /** Advancing takes the allocations lock only when it is free, and never a state lock. */
  lemma AdvanceKeepsLocks(c: Config, s: State, pid: nat, ok: bool, o: Observation)
    requires Inv(c, s) && Enabled(s, Advance(pid, ok, o))
    ensures Exclusive(Apply(c, s, Advance(pid, ok, o)))
    ensures CreatesAlone(Apply(c, s, Advance(pid, ok, o)))
  {
    AdvanceOnlyMoves(c, s, pid, ok, o);
    MovesKeepLocks(s, Apply(c, s, Advance(pid, ok, o)), pid);
  }

  // ---- preservation: what processes know ----------------------------------------------------------------

  /** How one step may treat the files: it leaves those of other sandboxes alone. */
  ghost predicate FilesChangeOnly(s: State, t: State, name: string) {
    forall other :: other != name ==>
      && (other in t.tasks <==> other in s.tasks) && (other in s.tasks ==> t.tasks[other] == s.tasks[other])
      && (other in t.bindings <==> other in s.bindings)
      && (other in s.bindings ==> t.bindings[other] == s.bindings[other])
  }

  lemma ReserveChangesOwnFiles(c: Config, s: State, pid: nat, ok: bool, o: Observation)
    requires pid in s.processes && IsStartPc(s.processes[pid].pc)
    ensures FilesChangeOnly(s, ReserveStep(c, s, pid, ok, o), s.processes[pid].sandbox)
  {
  }

  lemma StopChangesOwnFiles(c: Config, s: State, pid: nat, ok: bool)
    requires pid in s.processes && IsStopPc(s.processes[pid].pc)
    ensures FilesChangeOnly(s, StopStep(c, s, pid, ok), s.processes[pid].sandbox)
  {
  }

  lemma AdvanceChangesOwnFiles(c: Config, s: State, pid: nat, ok: bool, o: Observation)
    requires Enabled(s, Advance(pid, ok, o))
    ensures FilesChangeOnly(s, Apply(c, s, Advance(pid, ok, o)), s.processes[pid].sandbox)
  {
    var pc := s.processes[pid].pc;
    if IsStartPc(pc) {
      ReserveChangesOwnFiles(c, s, pid, ok, o);
    } else if IsStopPc(pc) {
      StopChangesOwnFiles(c, s, pid, ok);
    }
  }

  /** What a process knows of its own sandbox is not affected by changes to another. */
  lemma KnowledgeIsLocal(c: Config, s: State, t: State, q: Process, name: string)
    requires RecordsChangeOnly(c, s.records, t.records, name) && FilesChangeOnly(s, t, name)
    requires q.sandbox != name && Knows(s, q)
    ensures Knows(t, q)
  {
  }

  /** A process other than the one that moves. */
  lemma OthersStillKnow(c: Config, s: State, pid: nat, ok: bool, o: Observation, i: nat)
    requires ValidConfig(c) && Inv(c, s) && Enabled(s, Advance(pid, ok, o))
    requires i in s.processes && i != pid
    ensures Knows(Apply(c, s, Advance(pid, ok, o)), s.processes[i])
  {
    var p, q := s.processes[pid], s.processes[i];
    assert Knows(s, q);
    if q.sandbox == p.sandbox {
      assert !Conflict(p, q);
      if q.pc.CreateReserved? {
        CreatorStillKnows(c, s, pid, ok, o, q);
      } else {
        OutlivesCreate(c, s, pid, ok, o, q);
      }
    } else {
      AdvanceChangesOneRecord(c, s, pid, ok, o);
      AdvanceChangesOwnFiles(c, s, pid, ok, o);
      KnowledgeIsLocal(c, s, Apply(c, s, Advance(pid, ok, o)), q, p.sandbox);
    }
  }

  /** Beside a pending create, no process of the sandbox writes a task or gets at the allocations. */
  lemma CreatorStillKnows(c: Config, s: State, pid: nat, ok: bool, o: Observation, q: Process)
    requires Inv(c, s) && Enabled(s, Advance(pid, ok, o))
    requires q.pc.CreateReserved? && q.sandbox == s.processes[pid].sandbox && Knows(s, q)
    requires !s.processes[pid].pc.CreateReserved? && !PastAuthorization(s.processes[pid].pc)
    ensures Knows(Apply(c, s, Advance(pid, ok, o)), q)
  {
  }

  /** A create that ends finds no process of its sandbox past authorization. */
  lemma OutlivesCreate(c: Config, s: State, pid: nat, ok: bool, o: Observation, q: Process)
    requires Enabled(s, Advance(pid, ok, o)) && Knows(s, q)
    requires s.processes[pid].pc.CreateReserved? && !PastAuthorization(q.pc)
    ensures Knows(Apply(c, s, Advance(pid, ok, o)), q)
  {
  }

  lemma ReserverKnows(c: Config, s: State, pid: nat, ok: bool, o: Observation)
    requires Inv(c, s) && pid in s.processes && IsStartPc(s.processes[pid].pc)
    requires pid in ReserveStep(c, s, pid, ok, o).processes
    ensures Knows(ReserveStep(c, s, pid, ok, o), ReserveStep(c, s, pid, ok, o).processes[pid])
  {
    var p := s.processes[pid];
    assert Knows(s, p);
    if p.pc.VmStartHolds? {
      GetIsValid(s.records, p.sandbox);
      assert p.sandbox in s.tasks ==> IsActive(s.records, p.sandbox);
    }
  }

  lemma StopperKnows(c: Config, s: State, pid: nat, ok: bool)
    requires Inv(c, s) && pid in s.processes && IsStopPc(s.processes[pid].pc)
    requires pid in StopStep(c, s, pid, ok).processes
    ensures Knows(StopStep(c, s, pid, ok), StopStep(c, s, pid, ok).processes[pid])
  {
    assert Knows(s, s.processes[pid]);
  }

  lemma TaskKnows(c: Config, s: State, pid: nat, ok: bool)
    requires Inv(c, s) && pid in s.processes && IsTaskPc(s.processes[pid].pc)
    requires pid in TaskStep(c, s, pid, ok).processes
    ensures Knows(TaskStep(c, s, pid, ok), TaskStep(c, s, pid, ok).processes[pid])
  {
    assert Knows(s, s.processes[pid]);
  }

  lemma MoverKnows(c: Config, s: State, a: Action)
    requires Inv(c, s) && Enabled(s, a) && a.Advance?
    requires a.pid in Apply(c, s, a).processes
    ensures Knows(Apply(c, s, a), Apply(c, s, a).processes[a.pid])
  {
    var pc := s.processes[a.pid].pc;
    if pc.TransferHolds? || pc.TransferCleared? {
      assert Knows(s, s.processes[a.pid]);
    } else if IsTaskPc(pc) {
      TaskKnows(c, s, a.pid, a.ok);
    } else if IsStartPc(pc) {
      ReserverKnows(c, s, a.pid, a.ok, a.observed);
    } else {
      StopperKnows(c, s, a.pid, a.ok);
    }
  }

  lemma BeginnersKnow(c: Config, s: State, a: Action)
    requires ValidConfig(c) && Inv(c, s) && Enabled(s, a) && a.Begin?
    ensures ProcessesKnow(Apply(c, s, a))
  {
    StepChangesOneRecord(c, s, a);
    var t := Apply(c, s, a);
    forall i | i in t.processes ensures Knows(t, t.processes[i]) {
      if i != a.pid {
        assert Knows(s, s.processes[i]);
        if a.request.VmCreate? {
          ReservationFrames(c, a.caller, s.records, a.sandbox);
        }
      }
    }
  }

  lemma AdvanceKeepsKnowledge(c: Config, s: State, a: Action)
    requires ValidConfig(c) && Inv(c, s) && Enabled(s, a) && a.Advance?
    ensures ProcessesKnow(Apply(c, s, a))
  {
    var t := Apply(c, s, a);
    AdvanceOnlyMoves(c, s, a.pid, a.ok, a.observed);
    forall i | i in t.processes ensures Knows(t, t.processes[i]) {
      if i == a.pid {
        MoverKnows(c, s, a);
      } else {
        assert i in s.processes && t.processes[i] == s.processes[i];
        OthersStillKnow(c, s, a.pid, a.ok, a.observed, i);
      }
    }
  }

  lemma StepKeepsKnowledge(c: Config, s: State, a: Action)
    requires ValidConfig(c) && Inv(c, s) && Enabled(s, a)
    ensures ProcessesKnow(Apply(c, s, a))
  {
    match a
    case Begin(_, _, _, _, _) => BeginnersKnow(c, s, a);
    case Advance(_, _, _) => AdvanceKeepsKnowledge(c, s, a);
    case Kill(pid) =>
      forall i | i in Gone(s, pid).processes ensures Knows(Gone(s, pid), Gone(s, pid).processes[i]) {
        assert Knows(s, s.processes[i]);
      }
  }

  // ---- preservation: tasks --------------------------------------------------------------------------------

  ghost predicate Backed(s: State, name: string) {
    name in s.tasks ==> name in s.bindings && s.bindings[name] == s.tasks[name] && IsActive(s.records, name)
  }

  lemma BackedByOthers(c: Config, s: State, t: State, name: string)
    requires TasksAreBacked(s) && RecordsChangeOnly(c, s.records, t.records, name)
    requires FilesChangeOnly(s, t, name) && Backed(t, name)
    ensures TasksAreBacked(t)
  {
    forall other | other in t.tasks
      ensures other in t.bindings && t.bindings[other] == t.tasks[other] && IsActive(t.records, other)
    {
      if other != name {
        assert other in s.tasks;
      }
    }
  }

  lemma StepKeepsTasksBacked(c: Config, s: State, a: Action)
    requires ValidConfig(c) && Inv(c, s) && Enabled(s, a)
    ensures TasksAreBacked(Apply(c, s, a))
  {
    StepChangesOneRecord(c, s, a);
    match a
    case Begin(_, sandbox, caller, _, _) =>
      ReservationFrames(c, caller, s.records, sandbox);
      assert Backed(s, sandbox);
      BackedByOthers(c, s, Apply(c, s, a), sandbox);
    case Kill(_) =>
    case Advance(pid, ok, o) => AdvanceKeepsTasksBacked(c, s, pid, ok, o);
  }

  lemma AdvanceKeepsTasksBacked(c: Config, s: State, pid: nat, ok: bool, o: Observation)
    requires ValidConfig(c) && Inv(c, s) && Enabled(s, Advance(pid, ok, o))
    ensures TasksAreBacked(Apply(c, s, Advance(pid, ok, o)))
  {
    AdvanceChangesOneRecord(c, s, pid, ok, o);
    AdvanceChangesOwnFiles(c, s, pid, ok, o);
    AdvanceBacksItsOwn(c, s, pid, ok, o);
    BackedByOthers(c, s, Apply(c, s, Advance(pid, ok, o)), s.processes[pid].sandbox);
  }

  lemma AdvanceBacksItsOwn(c: Config, s: State, pid: nat, ok: bool, o: Observation)
    requires ValidConfig(c) && Inv(c, s) && Enabled(s, Advance(pid, ok, o))
    ensures var t, name := Apply(c, s, Advance(pid, ok, o)), s.processes[pid].sandbox;
      Backed(t, name)
  {
    var p := s.processes[pid];
    assert Knows(s, p);
    if p.pc.VmStartHolds? {
      ReservationFrames(c, p.caller, s.records, p.sandbox);
    }
  }

  lemma KillKeepsLocks(c: Config, s: State, pid: nat)
    requires Inv(c, s) && pid in s.processes
    ensures Exclusive(Gone(s, pid)) && CreatesAlone(Gone(s, pid))
  {
  }

  lemma StepKeepsInv(c: Config, s: State, a: Action)
    requires ValidConfig(c) && Inv(c, s)
    ensures Inv(c, Step(c, s, a))
  {
    if Enabled(s, a) {
      StepChangesOneRecord(c, s, a);
      StepKeepsKnowledge(c, s, a);
      StepKeepsTasksBacked(c, s, a);
      match a
      case Begin(pid, sandbox, caller, request, o) => BeginKeepsLocks(c, s, pid, sandbox, caller, request, o);
      case Advance(pid, ok, o) => AdvanceKeepsLocks(c, s, pid, ok, o);
      case Kill(pid) => KillKeepsLocks(c, s, pid);
    }
  }

  lemma {:induction false} RunKeepsInv(c: Config, s: State, actions: seq<Action>)
    requires ValidConfig(c) && Inv(c, s)
    ensures Inv(c, Run(c, s, actions))
    decreases |actions|
  {
    if actions != [] {
      RunKeepsInv(c, s, actions[..|actions| - 1]);
      StepKeepsInv(c, Run(c, s, actions[..|actions| - 1]), actions[|actions| - 1]);
    }
  }

  // ---- the main results ---------------------------------------------------------------------------------------

  /**
   In every interleaving, killed processes included, a task state file has a source binding with the
   same repository and digest and an active allocation record.
   */
  lemma EveryTaskIsBacked(c: Config, actions: seq<Action>, name: string)
    requires ValidConfig(c) && name in Run(c, Initial(), actions).tasks
    ensures var s := Run(c, Initial(), actions);
      name in s.bindings && s.bindings[name] == s.tasks[name] && IsActive(s.records, name)
  {
    RunKeepsInv(c, Initial(), actions);
  }

  /** In every interleaving the active records stay within the fixed capacity. */
  lemma EveryAllocationFits(c: Config, actions: seq<Action>)
    requires ValidConfig(c)
    ensures Sound(c, Run(c, Initial(), actions).records)
  {
    RunKeepsInv(c, Initial(), actions);
  }

  /** No two processes are inside the same lock, in any interleaving. */
  lemma LocksExclude(c: Config, actions: seq<Action>, i: nat, j: nat)
    requires ValidConfig(c)
    requires i in Run(c, Initial(), actions).processes && j in Run(c, Initial(), actions).processes && i != j
    ensures !Conflict(Run(c, Initial(), actions).processes[i], Run(c, Initial(), actions).processes[j])
  {
    RunKeepsInv(c, Initial(), actions);
  }

  /** The one step that records a binding. */
  predicate Binds(s: State, a: Action, name: string) {
    && a.Advance? && a.ok && a.pid in s.processes
    && s.processes[a.pid].sandbox == name
    && s.processes[a.pid].pc.TransferCleared? && s.processes[a.pid].pc.packet.Some?
  }

  lemma OnlyTransfersBind(c: Config, s: State, a: Action, name: string)
    requires name !in s.bindings
    ensures name in Step(c, s, a).bindings <==> Enabled(s, a) && Binds(s, a, name)
  {
  }

  /** The last step of a delete leaves neither a binding nor a task. */
  lemma DeleteLeavesNothing(c: Config, s: State, pid: nat, ok: bool, o: Observation)
    requires ValidConfig(c) && Inv(c, s) && pid in s.processes && s.processes[pid].pc.Unbound?
    ensures var t := Step(c, s, Advance(pid, ok, o));
      && pid !in t.processes
      && s.processes[pid].sandbox !in t.bindings && s.processes[pid].sandbox !in t.tasks
  {
    assert Knows(s, s.processes[pid]);
  }

  ghost predicate NeverBinds(c: Config, s: State, actions: seq<Action>, name: string)
    decreases |actions|
  {
    actions != [] ==>
      var before := actions[..|actions| - 1];
      NeverBinds(c, s, before, name) && !Binds(Run(c, s, before), actions[|actions| - 1], name)
  }

  /**
   Once a sandbox has no binding, as after a delete, no task of it runs until a transfer records a new
   one, whatever else happens, a new create under the same name included.
   */
  lemma {:induction false} NoTaskWithoutNewBinding(c: Config, s: State, actions: seq<Action>, name: string)
    requires ValidConfig(c) && Inv(c, s) && name !in s.bindings
    requires NeverBinds(c, s, actions, name)
    ensures name !in Run(c, s, actions).bindings && name !in Run(c, s, actions).tasks
    decreases |actions|
  {
    RunKeepsInv(c, s, actions);
    if actions != [] {
      var before := actions[..|actions| - 1];
      NoTaskWithoutNewBinding(c, s, before, name);
      OnlyTransfersBind(c, Run(c, s, before), actions[|actions| - 1], name);
    }
  }

  /** The two locks cannot deadlock: while processes remain, one of them can take its next step. */
  lemma SomeProcessCanAdvance(c: Config, s: State, ok: bool, o: Observation)
    requires s.processes != map[]
    ensures exists pid :: pid in s.processes && Enabled(s, Advance(pid, ok, o))
  {
    if AllocationsFree(s) {
      var pid :| pid in s.processes;
      assert Enabled(s, Advance(pid, ok, o));
    } else {
      var pid :| pid in s.processes && HoldsAllocations(s.processes[pid].pc);
      assert Enabled(s, Advance(pid, ok, o));
    }
  }

  // ---- every process gets done ------------------------------------------------------------------------------

  /** At most how many steps a process still has before it. */
  function StepsLeft(pc: Pc): nat {
    match pc
    case TransferHolds(_) => 2
    case TransferCleared(_) => 1
    case TaskHolds(_) => 3
    case TaskAuthorized(_) => 2
    case TaskMatched(_) => 1
    case TaskStopHolds(_) => 5
    case TaskStopAuthorized(_) => 4
    case VmStartHolds => 3
    case VmStartReserved(_) => 2
    case VmStartCommitted => 1
    case VmStopHolds(_) => 6
    case VmStopQuiet(_) => 5
    case VmDown(_) => 4
    case VmReleased(_) => 3
    case Forgotten => 2
    case Unbound => 1
    case CreateReserved => 1
  }

  lemma AdvanceTakesAStep(c: Config, s: State, pid: nat, ok: bool, o: Observation)
    requires Enabled(s, Advance(pid, ok, o))
    ensures var t := Step(c, s, Advance(pid, ok, o));
      pid in t.processes ==> StepsLeft(t.processes[pid].pc) < StepsLeft(s.processes[pid].pc)
  {
    var pc := s.processes[pid].pc;
    if pc.TransferHolds? || pc.TransferCleared? {
    } else if IsTaskPc(pc) {
    } else if IsStartPc(pc) {
    } else {
    }
  }

  /** Only running processes advance, none of them has to wait, and the outside world answers as it likes. */
  ghost predicate Drives(c: Config, s: State, actions: seq<Action>, answer: (nat, Pc) -> bool)
    decreases |actions|
  {
    actions != [] ==>
      var before, a := actions[..|actions| - 1], actions[|actions| - 1];
      && Drives(c, s, before, answer)
      && a.Advance? && Enabled(Run(c, s, before), a)
      && a.ok == answer(a.pid, Run(c, s, before).processes[a.pid].pc)
  }

  lemma {:induction false} RunInTwo(c: Config, s: State, first: seq<Action>, rest: seq<Action>,
                                    answer: (nat, Pc) -> bool)
    ensures Run(c, s, first + rest) == Run(c, Run(c, s, first), rest)
    ensures Drives(c, s, first, answer) && Drives(c, Run(c, s, first), rest, answer)
      ==> Drives(c, s, first + rest, answer)
    decreases |rest|
  {
    if rest == [] {
      assert first + rest == first;
    } else {
      var last := |rest| - 1;
      RunInTwo(c, s, first, rest[..last], answer);
      assert (first + rest)[..|first + rest| - 1] == first + rest[..last];
    }
  }

  lemma OneAction(c: Config, s: State, a: Action, answer: (nat, Pc) -> bool)
    requires a.Advance? && Enabled(s, a) && a.ok == answer(a.pid, s.processes[a.pid].pc)
    ensures Run(c, s, [a]) == Step(c, s, a) && Drives(c, s, [a], answer)
  {
    assert [a][..|[a]| - 1] == [];
  }

  /** A process beside which nobody holds the allocations runs to its end, and leaves the others where they are. */
  lemma {:induction false} ProcessFinishes(c: Config, s: State, pid: nat, answer: (nat, Pc) -> bool, o: Observation)
    returns (actions: seq<Action>)
    requires pid in s.processes
    requires forall q :: q in s.processes && q != pid ==> !HoldsAllocations(s.processes[q].pc)
    ensures Drives(c, s, actions, answer)
    ensures Run(c, s, actions).processes == s.processes - {pid}
    decreases StepsLeft(s.processes[pid].pc)
  {
    var ok := answer(pid, s.processes[pid].pc);
    var a := Advance(pid, ok, o);
    HolderIsEnabled(s, a);
    var t := Step(c, s, a);
    AdvanceOnlyMoves(c, s, pid, ok, o);
    AdvanceTakesAStep(c, s, pid, ok, o);
    OneAction(c, s, a, answer);
    if pid in t.processes {
      var rest := ProcessFinishes(c, t, pid, answer, o);
      RunInTwo(c, s, [a], rest, answer);
      assert t.processes - {pid} == s.processes - {pid};
      actions := [a] + rest;
    } else {
      assert t.processes == s.processes - {pid};
      actions := [a];
    }
  }

  lemma HolderIsEnabled(s: State, a: Action)
    requires a.Advance? && a.pid in s.processes
    requires forall q :: q in s.processes && q != a.pid ==> !HoldsAllocations(s.processes[q].pc)
    ensures Enabled(s, a)
  {
  }

  lemma {:induction false} ProcessesFinish(c: Config, s: State, answer: (nat, Pc) -> bool, o: Observation)
    returns (actions: seq<Action>)
    requires ValidConfig(c) && Inv(c, s)
    ensures Drives(c, s, actions, answer) && Run(c, s, actions).processes == map[]
    decreases |s.processes|
  {
    actions := [];
    if s.processes != map[] {
      var pid :| pid in s.processes;
      if !AllocationsFree(s) {
        pid :| pid in s.processes && HoldsAllocations(s.processes[pid].pc);
        assert forall q :: q in s.processes && q != pid ==> !Conflict(s.processes[q], s.processes[pid]);
      }
      var first := ProcessFinishes(c, s, pid, answer, o);
      var t := Run(c, s, first);
      RunKeepsInv(c, s, first);
      assert t.processes.Keys == s.processes.Keys - {pid};
      var rest := ProcessesFinish(c, t, answer, o);
      RunInTwo(c, s, first, rest, answer);
      actions := first + rest;
    }
  }

  /**
   No deadlock and no endless waiting: from every state any interleaving reaches, killed processes and
   failing steps included, the remaining processes can all be run to their end without one of them ever
   blocking, whatever the outside world answers to each step.
   */
  lemma EveryProcessCanFinish(c: Config, past: seq<Action>, answer: (nat, Pc) -> bool, o: Observation)
    requires ValidConfig(c)
    ensures exists actions ::
      && Drives(c, Run(c, Initial(), past), actions, answer)
      && Run(c, Run(c, Initial(), past), actions).processes == map[]
  {
    RunKeepsInv(c, Initial(), past);
    var actions := ProcessesFinish(c, Run(c, Initial(), past), answer, o);
  }
}
