/**
 Who changes a host's sandboxes, by how much, and what one process does alone
 (tools/incus_sandbox/helper.py, task_environment.py): over every interleaving of the locked processes.
 */
module SandboxCallers {
  import opened Wrappers
  import opened Allocation
  import opened AllocationSlots
  import opened SandboxRuns

  // ---- past its checks a process is the operator's ------------------------------------------------

  /** The pcs a process reaches only through an ownership check or an admission. */
  predicate IsChecked(pc: Pc) {
    && !pc.TransferHolds? && !pc.TransferCleared? && !pc.TaskHolds? && !pc.TaskStopHolds?
    && !pc.VmStartHolds? && !pc.VmStopHolds?
  }

  predicate CallerHolds(c: Config, p: Process) {
    && (IsChecked(p.pc) ==> p.caller == c.operator)
    && (p.pc.VmStartReserved? ==> IsOneVm(c, p.pc.previous))
  }

  ghost predicate CallersHold(c: Config, s: State) {
    && Sized(c, s.records)
    && forall i :: i in s.processes ==> CallerHolds(c, s.processes[i])
  }

  lemma BeginKeepsCallers(c: Config, s: State, a: Action)
    requires CallersHold(c, s) && Enabled(s, a) && a.Begin?
    ensures CallersHold(c, Apply(c, s, a))
  {
    if a.request.VmCreate? && Admit(c, a.caller, a.observed, s.records, a.sandbox, true).Ok? {
      AdmittedIsSized(c, a.caller, a.observed, s.records, a.sandbox, true);
    }
  }

  lemma ReserveKeepsCallers(c: Config, s: State, pid: nat, ok: bool, o: Observation)
    requires CallersHold(c, s) && pid in s.processes && IsStartPc(s.processes[pid].pc)
    ensures CallersHold(c, ReserveStep(c, s, pid, ok, o))
  {
    var p := s.processes[pid];
    assert CallerHolds(c, p);
    match p.pc
    case VmStartHolds =>
      GetIsEntry(s.records, p.sandbox);
      if Admit(c, p.caller, o, s.records, p.sandbox, false).Ok? {
        AdmittedIsSized(c, p.caller, o, s.records, p.sandbox, false);
      }
    case VmStartReserved(previous) => PutEntries(s.records, p.sandbox, previous);
    case VmStartCommitted =>
    case CreateReserved => PopEntries(s.records, p.sandbox);
  }

  lemma StopKeepsCallers(c: Config, s: State, pid: nat, ok: bool)
    requires CallersHold(c, s) && pid in s.processes && IsStopPc(s.processes[pid].pc)
    ensures CallersHold(c, StopStep(c, s, pid, ok))
  {
    assert CallerHolds(c, s.processes[pid]);
    DeactivatedIsSized(c, s.records, s.processes[pid].sandbox);
  }

  lemma TaskKeepsCallers(c: Config, s: State, pid: nat, ok: bool)
    requires CallersHold(c, s) && pid in s.processes && IsTaskPc(s.processes[pid].pc)
    ensures CallersHold(c, TaskStep(c, s, pid, ok))
  {
    assert CallerHolds(c, s.processes[pid]);
  }

  lemma StepKeepsCallers(c: Config, s: State, a: Action)
    requires CallersHold(c, s)
    ensures CallersHold(c, Step(c, s, a))
  {
    if Enabled(s, a) {
      match a
      case Begin(_, _, _, _, _) => BeginKeepsCallers(c, s, a);
      case Kill(_) =>
      case Advance(pid, ok, o) =>
        var pc := s.processes[pid].pc;
        if IsTaskPc(pc) {
          TaskKeepsCallers(c, s, pid, ok);
        } else if IsStartPc(pc) {
          ReserveKeepsCallers(c, s, pid, ok, o);
        } else if IsStopPc(pc) {
          StopKeepsCallers(c, s, pid, ok);
        }
    }
  }

  lemma {:induction false} RunKeepsCallers(c: Config, actions: seq<Action>)
    ensures CallersHold(c, Run(c, Initial(), actions))
    decreases |actions|
  {
    if actions != [] {
      RunKeepsCallers(c, actions[..|actions| - 1]);
      StepKeepsCallers(c, Run(c, Initial(), actions[..|actions| - 1]), actions[|actions| - 1]);
    }
  }

  // ---- the main results --------------------------------------------------------------------------------

  /**
   In every interleaving every record is one VM of the operator with the fixed sizes, and that many
   times the number of active records is within the bounds of the host.
   */
  lemma EveryRecordIsOneVm(c: Config, actions: seq<Action>)
    requires ValidConfig(c)
    ensures Sized(c, Run(c, Initial(), actions).records)
    ensures Fit(c, NumberActive(Run(c, Initial(), actions).records))
  {
    RunKeepsCallers(c, actions);
    RunKeepsInv(c, Initial(), actions);
    SoundCountFits(c, Run(c, Initial(), actions).records);
  }

  /** Whose process takes a step. */
  function CallerOf(s: State, a: Action): Option<int> {
    match a
    case Begin(_, _, caller, _, _) => Some(caller)
    case Advance(pid, _, _) => if pid in s.processes then Some(s.processes[pid].caller) else None
    case Kill(_) => None
  }

  /** In every interleaving only steps of the operator's processes change a record or a task state file. */
  lemma EveryChangeIsTheOperators(c: Config, past: seq<Action>, a: Action)
    requires ValidConfig(c)
    requires var s := Run(c, Initial(), past);
      Step(c, s, a).records != s.records || Step(c, s, a).tasks != s.tasks
    ensures CallerOf(Run(c, Initial(), past), a) == Some(c.operator)
  {
    var s := Run(c, Initial(), past);
    RunKeepsCallers(c, past);
    match a
    case Begin(_, _, _, _, _) =>
    case Advance(pid, ok, o) =>
      assert CallerHolds(c, s.processes[pid]);
      if s.processes[pid].caller != c.operator {
        OthersChangeNothing(c, s, pid, ok, o);
      }
    case Kill(_) =>
  }

  lemma OthersChangeNothing(c: Config, s: State, pid: nat, ok: bool, o: Observation)
    requires Enabled(s, Advance(pid, ok, o)) && CallerHolds(c, s.processes[pid])
    requires s.processes[pid].caller != c.operator
    ensures Step(c, s, Advance(pid, ok, o)).records == s.records
    ensures Step(c, s, Advance(pid, ok, o)).tasks == s.tasks
  {
    var pc := s.processes[pid].pc;
    if pc.TransferHolds? || pc.TransferCleared? {
      assert s.processes[pid].sandbox !in s.tasks ==> s.tasks - {s.processes[pid].sandbox} == s.tasks;
    } else if IsTaskPc(pc) {
    } else if IsStartPc(pc) {
    } else {
    }
  }

  /** A new or changed task state file. */
  predicate TaskAppears(s: State, t: State, name: string) {
    name in t.tasks && (name !in s.tasks || t.tasks[name] != s.tasks[name])
  }

  /**
   In every interleaving a task state file appears if and only if a process of the sandbox's operator
   gets its matched task started; the active record is then that operator's, and the binding what the
   task asked for.
   */
  lemma TaskAppearsForItsOwner(c: Config, past: seq<Action>, a: Action, name: string)
    requires ValidConfig(c) && TaskAppears(Run(c, Initial(), past), Step(c, Run(c, Initial(), past), a), name)
    ensures var s := Run(c, Initial(), past);
      && a.Advance? && a.ok && a.pid in s.processes && s.processes[a.pid].sandbox == name
      && s.processes[a.pid].pc == TaskMatched(Step(c, s, a).tasks[name])
      && IsActive(s.records, name)
      && s.processes[a.pid].caller == Get(s.records, name).value.owner == c.operator
      && name in s.bindings && s.bindings[name] == Step(c, s, a).tasks[name]
  {
    var s := Run(c, Initial(), past);
    RunKeepsCallers(c, past);
    RunKeepsInv(c, Initial(), past);
    GetIsEntry(s.records, name);
    OnlyTaskStepsStart(c, s, a, name);
    assert CallerHolds(c, s.processes[a.pid]) && Knows(s, s.processes[a.pid]);
  }

  lemma OnlyTaskStepsStart(c: Config, s: State, a: Action, name: string)
    requires TaskAppears(s, Step(c, s, a), name)
    ensures a.Advance? && a.ok && a.pid in s.processes && s.processes[a.pid].sandbox == name
    ensures s.processes[a.pid].pc == TaskMatched(Step(c, s, a).tasks[name])
  {
    if a.Advance? {
      var pc := s.processes[a.pid].pc;
      if pc.TransferHolds? || pc.TransferCleared? {
      } else if IsTaskPc(pc) {
      } else if IsStartPc(pc) {
      } else {
      }
    }
  }

  // ---- one process alone ----------------------------------------------------------------------------------

  /** The actions one after the other, first to last. */
  function Follow(c: Config, s: State, actions: seq<Action>): State
    decreases |actions|
  {
    if actions == [] then s else Follow(c, Step(c, s, actions[0]), actions[1..])
  }

  lemma {:induction false} FollowIsRun(c: Config, s: State, actions: seq<Action>)
    ensures Follow(c, s, actions) == Run(c, s, actions)
    decreases |actions|
  {
    if actions != [] {
      FollowIsRun(c, Step(c, s, actions[0]), actions[1..]);
      RunFirst(c, s, actions);
    }
  }

  lemma {:induction false} RunFirst(c: Config, s: State, actions: seq<Action>)
    requires actions != []
    ensures Run(c, s, actions) == Run(c, Step(c, s, actions[0]), actions[1..])
    decreases |actions|
  {
    if |actions| == 1 {
      assert actions[..0] == [] && actions[1..] == [];
    } else {
      var last := |actions| - 1;
      RunFirst(c, s, actions[..last]);
      assert actions[..last][1..] == actions[1..][..last - 1];
    }
  }

  /** The files of the host that the processes share. */
  ghost predicate SameFiles(s: State, h: Host) {
    s.records == h.records && s.tasks.Keys == h.tasks && s.bindings.Keys == h.bindings
  }

  function RequestOf(op: Op): Request {
    match op
    case Create => VmCreate
    case Start => VmStart
    case Stop => VmStop
    case Delete(_) => VmDelete
  }

  /** The answers from the instance command of a stop or a delete on. */
  function DownAnswers(delete: bool, down: bool, audited: bool): seq<bool> {
    if delete then [down, true, audited, true, true] else [down, true, audited]
  }

  /** What the outside world answers to the steps of one operation, in their order. */
  function Answers(h: Host, op: Op, name: string, out: Outside): seq<bool> {
    match op
    case Create => [Launched(h, name, out) == 3 && !out.auditFails]
    case Start => [out.auditReady, name in h.vms && Runs(out, 0) && !out.auditFails, true]
    case _ => [!(name in h.tasks && out.taskStopFails)]
              + DownAnswers(op.Delete?, out.auditReady && name in h.vms && Runs(out, 0), !out.auditFails)
  }

  function Advances(pid: nat, answers: seq<bool>, o: Observation): seq<Action> {
    if answers == [] then [] else [Advance(pid, answers[0], o)] + Advances(pid, answers[1..], o)
  }

  /** A process that runs one operation; none is started without its audit log or its confirmation. */
  function Script(pid: nat, h: Host, call: Call): seq<Action> {
    if (call.op.Create? && !call.out.auditReady) || (call.op.Delete? && call.op.confirmation != Some(call.name)) then []
    else
      [Begin(pid, call.name, call.caller, RequestOf(call.op), call.out.observed)]
      + Advances(pid, Answers(h, call.op, call.name, call.out), call.out.observed)
  }

  lemma FollowAdvance(c: Config, s: State, pid: nat, answers: seq<bool>, o: Observation)
    requires answers != []
    ensures Follow(c, s, Advances(pid, answers, o))
      == Follow(c, Step(c, s, Advance(pid, answers[0], o)), Advances(pid, answers[1..], o))
  {
    var actions := Advances(pid, answers, o);
    assert actions[1..] == Advances(pid, answers[1..], o);
  }

  lemma {:induction false} GoneStaysGone(c: Config, s: State, pid: nat, answers: seq<bool>, o: Observation)
    requires pid !in s.processes
    ensures Follow(c, s, Advances(pid, answers, o)) == s
  {
    if answers != [] {
      FollowAdvance(c, s, pid, answers, o);
      GoneStaysGone(c, s, pid, answers[1..], o);
    }
  }

  lemma ScriptStart(c: Config, s: State, pid: nat, h: Host, call: Call)
    requires Script(pid, h, call) != []
    ensures Follow(c, s, Script(pid, h, call))
      == Follow(c, Step(c, s, Begin(pid, call.name, call.caller, RequestOf(call.op), call.out.observed)),
                Advances(pid, Answers(h, call.op, call.name, call.out), call.out.observed))
  {
    assert Script(pid, h, call)[1..] == Advances(pid, Answers(h, call.op, call.name, call.out), call.out.observed);
  }

  /** The files with one process on the host. */
  function Lone(t: State, pid: nat, name: string, caller: int, pc: Pc): State {
    t.(processes := map[pid := Process(name, caller, pc)])
  }

  lemma LoneIsEnabled(t: State, pid: nat, name: string, caller: int, pc: Pc, ok: bool, o: Observation)
    ensures Enabled(Lone(t, pid, name, caller, pc), Advance(pid, ok, o))
  {
  }

  /** The one move of a lone process that only goes on, or gives up. */
  lemma LoneQuiet(c: Config, t: State, pid: nat, name: string, caller: int, delete: bool, ok: bool, o: Observation)
    requires t.processes == map[]
    ensures Step(c, Lone(t, pid, name, caller, VmStopQuiet(delete)), Advance(pid, ok, o))
      == if ok then Lone(t, pid, name, caller, VmDown(delete)) else t
  {
    LoneIsEnabled(t, pid, name, caller, VmStopQuiet(delete), ok, o);
  }

  lemma LoneDown(c: Config, t: State, pid: nat, name: string, caller: int, delete: bool, ok: bool, o: Observation)
    requires t.processes == map[]
    ensures Step(c, Lone(t, pid, name, caller, VmDown(delete)), Advance(pid, ok, o))
      == Lone(t.(records := Deactivate(t.records, name)), pid, name, caller, VmReleased(delete))
  {
    LoneIsEnabled(t, pid, name, caller, VmDown(delete), ok, o);
  }

  lemma LoneReleased(c: Config, t: State, pid: nat, name: string, caller: int, delete: bool, ok: bool, o: Observation)
    requires t.processes == map[]
    ensures Step(c, Lone(t, pid, name, caller, VmReleased(delete)), Advance(pid, ok, o))
      == if ok && delete then Lone(t.(records := Pop(t.records, name)), pid, name, caller, Forgotten) else t
  {
    LoneIsEnabled(t, pid, name, caller, VmReleased(delete), ok, o);
  }

  lemma LoneForgotten(c: Config, t: State, pid: nat, name: string, caller: int, ok: bool, o: Observation)
    requires t.processes == map[]
    ensures Step(c, Lone(t, pid, name, caller, Forgotten), Advance(pid, ok, o))
      == Lone(t.(bindings := t.bindings - {name}), pid, name, caller, Unbound)
  {
    LoneIsEnabled(t, pid, name, caller, Forgotten, ok, o);
  }

  lemma LoneUnbound(c: Config, t: State, pid: nat, name: string, caller: int, ok: bool, o: Observation)
    requires t.processes == map[]
    ensures Step(c, Lone(t, pid, name, caller, Unbound), Advance(pid, ok, o)) == t.(tasks := t.tasks - {name})
  {
    LoneIsEnabled(t, pid, name, caller, Unbound, ok, o);
  }

  lemma LoneHolds(c: Config, t: State, pid: nat, name: string, caller: int, delete: bool, ok: bool, o: Observation)
    requires t.processes == map[]
    ensures Step(c, Lone(t, pid, name, caller, VmStopHolds(delete)), Advance(pid, ok, o))
      == if ok && Owns(c, caller, t.records, name)
         then Lone(t.(tasks := t.tasks - {name}), pid, name, caller, VmStopQuiet(delete)) else t
  {
    LoneIsEnabled(t, pid, name, caller, VmStopHolds(delete), ok, o);
  }

  lemma LoneStart(c: Config, t: State, pid: nat, name: string, caller: int, ok: bool, o: Observation)
    requires t.processes == map[]
    ensures Step(c, Lone(t, pid, name, caller, VmStartHolds), Advance(pid, ok, o))
      == if ok && Admit(c, caller, o, t.records, name, false).Ok?
         then Lone(t.(records := Admit(c, caller, o, t.records, name, false).value), pid, name, caller,
                   VmStartReserved(Get(t.records, name).value))
         else t
  {
    LoneIsEnabled(t, pid, name, caller, VmStartHolds, ok, o);
  }

  lemma LoneBegins(c: Config, t: State, pid: nat, name: string, caller: int, op: Op, o: Observation)
    requires t.processes == map[] && !op.Create? && ValidName(name)
    ensures Step(c, t, Begin(pid, name, caller, RequestOf(op), o))
      == Lone(t, pid, name, caller, if op.Start? then VmStartHolds else VmStopHolds(op.Delete?))
  {
  }

  lemma LoneCreateBegins(c: Config, t: State, pid: nat, name: string, caller: int, o: Observation)
    requires t.processes == map[] && ValidName(name)
    ensures Step(c, t, Begin(pid, name, caller, VmCreate, o))
      == match Admit(c, caller, o, t.records, name, true)
         case Err(_) => t
         case Ok(reserved) => Lone(t.(records := reserved), pid, name, caller, CreateReserved)
  {
  }

  lemma LoneCreate(c: Config, t: State, pid: nat, name: string, caller: int, ok: bool, o: Observation)
    requires t.processes == map[]
    ensures Step(c, Lone(t, pid, name, caller, CreateReserved), Advance(pid, ok, o))
      == if ok then t else t.(records := Pop(t.records, name))
  {
    LoneIsEnabled(t, pid, name, caller, CreateReserved, ok, o);
  }

  lemma CreateAlone(c: Config, s: State, pid: nat, h: Host, call: Call)
    requires SameFiles(s, h) && s.processes == map[] && call.op.Create? && ValidName(call.name) && call.out.auditReady
    ensures SameFiles(Follow(c, s, Script(pid, h, call)), PerformCall(c, h, call))
    ensures Follow(c, s, Script(pid, h, call)).processes == map[]
  {
    ScriptStart(c, s, pid, h, call);
    var o, ok := call.out.observed, Launched(h, call.name, call.out) == 3 && !call.out.auditFails;
    LoneCreateBegins(c, s, pid, call.name, call.caller, o);
    assert [ok][1..] == [];
    var admitted := Admit(c, call.caller, o, s.records, call.name, true);
    if admitted.Ok? {
      var reserved := s.(records := admitted.value);
      FollowAdvance(c, Lone(reserved, pid, call.name, call.caller, CreateReserved), pid, [ok], o);
      LoneCreate(c, reserved, pid, call.name, call.caller, ok, o);
    } else {
      GoneStaysGone(c, s, pid, [ok], o);
    }
  }

  /** From the moment a start has its reservation: the record the rollback restores is at hand. */
  lemma ReservedAlone(c: Config, t: State, pid: nat, name: string, caller: int, previous: Record, up: bool,
                      o: Observation)
    requires t.processes == map[]
    ensures Follow(c, Lone(t, pid, name, caller, VmStartReserved(previous)), Advances(pid, [up, true], o))
      == if up then t.(tasks := t.tasks - {name}) else t.(records := Put(t.records, name, previous))
  {
    var reserved := Lone(t, pid, name, caller, VmStartReserved(previous));
    FollowAdvance(c, reserved, pid, [up, true], o);
    assert [up, true][1..] == [true];
    var next := Step(c, reserved, Advance(pid, up, o));
    if up {
      FollowAdvance(c, next, pid, [true], o);
      assert [true][1..] == [];
    } else {
      GoneStaysGone(c, next, pid, [true], o);
    }
  }

  /** What a start leaves from its reservation on, in the sequential operation too. */
  lemma ReservedIsTheOperation(c: Config, s: State, h: Host, call: Call)
    requires SameFiles(s, h) && s.processes == map[] && call.op.Start? && ValidName(call.name)
    requires call.out.auditReady && Admit(c, call.caller, call.out.observed, h.records, call.name, false).Ok?
    ensures var up := call.name in h.vms && Runs(call.out, 0) && !call.out.auditFails;
      var t := s.(records := Admit(c, call.caller, call.out.observed, h.records, call.name, false).value);
      SameFiles(if up then t.(tasks := t.tasks - {call.name})
                else t.(records := Put(t.records, call.name, Get(h.records, call.name).value)), PerformCall(c, h, call))
  {
  }

  lemma StartAlone(c: Config, s: State, pid: nat, h: Host, call: Call)
    requires SameFiles(s, h) && s.processes == map[] && call.op.Start? && ValidName(call.name)
    ensures SameFiles(Follow(c, s, Script(pid, h, call)), PerformCall(c, h, call))
    ensures Follow(c, s, Script(pid, h, call)).processes == map[]
  {
    ScriptStart(c, s, pid, h, call);
    var o, answers := call.out.observed, Answers(h, call.op, call.name, call.out);
    var up := call.name in h.vms && Runs(call.out, 0) && !call.out.auditFails;
    LoneBegins(c, s, pid, call.name, call.caller, call.op, o);
    FollowAdvance(c, Lone(s, pid, call.name, call.caller, VmStartHolds), pid, answers, o);
    assert answers[1..] == [up, true];
    LoneStart(c, s, pid, call.name, call.caller, call.out.auditReady, o);
    var admitted := Admit(c, call.caller, o, h.records, call.name, false);
    if call.out.auditReady && admitted.Ok? {
      ReservedAlone(c, s.(records := admitted.value), pid, call.name, call.caller,
                    Get(h.records, call.name).value, up, o);
      ReservedIsTheOperation(c, s, h, call);
    } else {
      GoneStaysGone(c, s, pid, answers[1..], o);
    }
  }

  /** From the moment the record is released: a delete that is audited forgets the sandbox. */
  lemma ReleasedAlone(c: Config, t: State, pid: nat, name: string, caller: int, audited: bool, o: Observation)
    requires t.processes == map[]
    ensures Follow(c, Lone(t, pid, name, caller, VmReleased(true)), Advances(pid, [audited, true, true], o))
      == if audited then State(Pop(t.records, name), t.bindings - {name}, t.tasks - {name}, map[]) else t
  {
    FollowAdvance(c, Lone(t, pid, name, caller, VmReleased(true)), pid, [audited, true, true], o);
    assert [audited, true, true][1..] == [true, true];
    LoneReleased(c, t, pid, name, caller, true, audited, o);
    if audited {
      var popped := t.(records := Pop(t.records, name));
      FollowAdvance(c, Lone(popped, pid, name, caller, Forgotten), pid, [true, true], o);
      assert [true, true][1..] == [true];
      LoneForgotten(c, popped, pid, name, caller, true, o);
      var unbound := popped.(bindings := t.bindings - {name});
      FollowAdvance(c, Lone(unbound, pid, name, caller, Unbound), pid, [true], o);
      assert [true][1..] == [];
      LoneUnbound(c, unbound, pid, name, caller, true, o);
    } else {
      GoneStaysGone(c, t, pid, [true, true], o);
    }
  }

  lemma ReleasedStops(c: Config, t: State, pid: nat, name: string, caller: int, audited: bool, o: Observation)
    requires t.processes == map[]
    ensures Follow(c, Lone(t, pid, name, caller, VmReleased(false)), Advances(pid, [audited], o)) == t
  {
    FollowAdvance(c, Lone(t, pid, name, caller, VmReleased(false)), pid, [audited], o);
    assert [audited][1..] == [];
    LoneReleased(c, t, pid, name, caller, false, audited, o);
  }

  /** What a stop or a delete leaves from the moment its task session is quiet. */
  function DownState(t: State, name: string, delete: bool, down: bool, audited: bool): State {
    var released := t.(records := Deactivate(t.records, name));
    if !down then t
    else if !delete || !audited then released
    else State(Pop(released.records, name), t.bindings - {name}, t.tasks - {name}, map[])
  }

  lemma QuietAlone(c: Config, t: State, pid: nat, name: string, caller: int, delete: bool, down: bool, audited: bool,
                   o: Observation)
    requires t.processes == map[]
    ensures Follow(c, Lone(t, pid, name, caller, VmStopQuiet(delete)),
                   Advances(pid, DownAnswers(delete, down, audited), o)) == DownState(t, name, delete, down, audited)
  {
    var answers := DownAnswers(delete, down, audited);
    FollowAdvance(c, Lone(t, pid, name, caller, VmStopQuiet(delete)), pid, answers, o);
    LoneQuiet(c, t, pid, name, caller, delete, down, o);
    if down {
      FollowAdvance(c, Lone(t, pid, name, caller, VmDown(delete)), pid, answers[1..], o);
      LoneDown(c, t, pid, name, caller, delete, true, o);
      var released := t.(records := Deactivate(t.records, name));
      if delete {
        assert answers[1..][1..] == [audited, true, true];
        ReleasedAlone(c, released, pid, name, caller, audited, o);
      } else {
        assert answers[1..][1..] == [audited];
        ReleasedStops(c, released, pid, name, caller, audited, o);
      }
    } else {
      GoneStaysGone(c, t, pid, answers[1..], o);
    }
  }

  /** The same in the sequential operation. */
  lemma DownIsTheOperation(c: Config, s: State, h: Host, call: Call)
    requires SameFiles(s, h) && s.processes == map[] && (call.op.Stop? || call.op.Delete?) && ValidName(call.name)
    requires call.op.Delete? ==> call.op.confirmation == Some(call.name)
    requires Quieted(c, call.caller, h, call.name, call.out).Some?
    ensures SameFiles(
      DownState(s.(tasks := s.tasks - {call.name}), call.name, call.op.Delete?,
                call.out.auditReady && call.name in h.vms && Runs(call.out, 0), !call.out.auditFails),
      PerformCall(c, h, call))
  {
  }

  lemma StopAlone(c: Config, s: State, pid: nat, h: Host, call: Call)
    requires SameFiles(s, h) && s.processes == map[] && (call.op.Stop? || call.op.Delete?) && ValidName(call.name)
    requires call.op.Delete? ==> call.op.confirmation == Some(call.name)
    ensures SameFiles(Follow(c, s, Script(pid, h, call)), PerformCall(c, h, call))
    ensures Follow(c, s, Script(pid, h, call)).processes == map[]
  {
    ScriptStart(c, s, pid, h, call);
    var o, delete, quiet := call.out.observed, call.op.Delete?, !(call.name in h.tasks && call.out.taskStopFails);
    var down, audited := call.out.auditReady && call.name in h.vms && Runs(call.out, 0), !call.out.auditFails;
    var answers := [quiet] + DownAnswers(delete, down, audited);
    LoneBegins(c, s, pid, call.name, call.caller, call.op, o);
    FollowAdvance(c, Lone(s, pid, call.name, call.caller, VmStopHolds(delete)), pid, answers, o);
    assert answers[1..] == DownAnswers(delete, down, audited);
    LoneHolds(c, s, pid, call.name, call.caller, delete, quiet, o);
    if Quieted(c, call.caller, h, call.name, call.out).Some? {
      QuietAlone(c, s.(tasks := s.tasks - {call.name}), pid, call.name, call.caller, delete, down, audited, o);
      DownIsTheOperation(c, s, h, call);
    } else {
      GoneStaysGone(c, s, pid, answers[1..], o);
    }
  }

  /** No operation gets anywhere with an invalid name. */
  lemma InvalidNameIsRefused(c: Config, s: State, pid: nat, h: Host, call: Call)
    requires SameFiles(s, h) && s.processes == map[]
    requires !ValidName(call.name) || Script(pid, h, call) == []
    ensures Follow(c, s, Script(pid, h, call)) == s && PerformCall(c, h, call) == h
  {
    if Script(pid, h, call) != [] {
      ScriptStart(c, s, pid, h, call);
      GoneStaysGone(c, s, pid, Answers(h, call.op, call.name, call.out), call.out.observed);
    }
  }

  /**
   Alone on the host, the steps of a process are its operation: they leave the records, task state files
   and bindings that the sequential operation leaves, and no process.
   */
  lemma ProcessAloneIsTheOperation(c: Config, s: State, pid: nat, h: Host, call: Call)
    requires SameFiles(s, h) && s.processes == map[]
    ensures SameFiles(Run(c, s, Script(pid, h, call)), PerformCall(c, h, call))
    ensures Run(c, s, Script(pid, h, call)).processes == map[]
  {
    FollowIsRun(c, s, Script(pid, h, call));
    if !ValidName(call.name) || Script(pid, h, call) == [] {
      InvalidNameIsRefused(c, s, pid, h, call);
    } else if call.op.Create? {
      CreateAlone(c, s, pid, h, call);
    } else if call.op.Start? {
      StartAlone(c, s, pid, h, call);
    } else {
      StopAlone(c, s, pid, h, call);
    }
  }

  // ---- transfers and tasks alone ------------------------------------------------------------------------

  lemma LoneTask(c: Config, t: State, pid: nat, name: string, caller: int, r: Binding, ok: bool, o: Observation)
    requires t.processes == map[]
    ensures Step(c, Lone(t, pid, name, caller, TaskHolds(r)), Advance(pid, ok, o))
      == if ok && caller == c.operator && IsActive(t.records, name) && Get(t.records, name).value.owner == caller
         then Lone(t, pid, name, caller, TaskAuthorized(r)) else t
  {
    LoneIsEnabled(t, pid, name, caller, TaskHolds(r), ok, o);
  }

  lemma LoneAuthorized(c: Config, t: State, pid: nat, name: string, caller: int, r: Binding, ok: bool, o: Observation)
    requires t.processes == map[]
    ensures Step(c, Lone(t, pid, name, caller, TaskAuthorized(r)), Advance(pid, ok, o))
      == if ok && name in t.bindings && t.bindings[name] == r
         then Lone(t, pid, name, caller, TaskMatched(r)) else t
  {
    LoneIsEnabled(t, pid, name, caller, TaskAuthorized(r), ok, o);
  }

  lemma LoneMatched(c: Config, t: State, pid: nat, name: string, caller: int, r: Binding, ok: bool, o: Observation)
    requires t.processes == map[]
    ensures Step(c, Lone(t, pid, name, caller, TaskMatched(r)), Advance(pid, ok, o))
      == if ok then t.(tasks := t.tasks[name := r]) else t
  {
    LoneIsEnabled(t, pid, name, caller, TaskMatched(r), ok, o);
  }

  /**
   A task start alone: the task state file is written if and only if the caller is the operator that owns
   the active record, the binding is the requested one and every step succeeds; otherwise nothing changes.
   */
  lemma TaskStartAlone(c: Config, s: State, pid: nat, name: string, caller: int, r: Binding, oks: (bool, bool, bool),
                       o: Observation)
    requires s.processes == map[] && ValidName(name)
    ensures Run(c, s, [Begin(pid, name, caller, TaskStart(r), o)] + Advances(pid, [oks.0, oks.1, oks.2], o))
      == if && oks.0 && oks.1 && oks.2 && caller == c.operator && IsActive(s.records, name)
            && Get(s.records, name).value.owner == caller && name in s.bindings && s.bindings[name] == r
         then s.(tasks := s.tasks[name := r]) else s
  {
    var begin, answers := Begin(pid, name, caller, TaskStart(r), o), [oks.0, oks.1, oks.2];
    FollowIsRun(c, s, [begin] + Advances(pid, answers, o));
    assert ([begin] + Advances(pid, answers, o))[1..] == Advances(pid, answers, o);
    assert Step(c, s, begin) == Lone(s, pid, name, caller, TaskHolds(r));
    FollowAdvance(c, Lone(s, pid, name, caller, TaskHolds(r)), pid, answers, o);
    LoneTask(c, s, pid, name, caller, r, oks.0, o);
    assert answers[1..] == [oks.1, oks.2] && answers[1..][1..] == [oks.2] && [oks.2][1..] == [];
    FollowAdvance(c, Lone(s, pid, name, caller, TaskAuthorized(r)), pid, answers[1..], o);
    LoneAuthorized(c, s, pid, name, caller, r, oks.1, o);
    FollowAdvance(c, Lone(s, pid, name, caller, TaskMatched(r)), pid, [oks.2], o);
    LoneMatched(c, s, pid, name, caller, r, oks.2, o);
    GoneStaysGone(c, s, pid, answers[1..], o);
    GoneStaysGone(c, s, pid, [oks.2], o);
  }

  /**
   A transfer alone: beside a task it changes nothing; otherwise the old binding goes before anything is
   sent, and the new one is recorded if and only if everything succeeded and the packet names one.
   */
  lemma TransferAlone(c: Config, s: State, pid: nat, name: string, caller: int, packet: Option<Binding>,
                      oks: (bool, bool), o: Observation)
    requires s.processes == map[] && ValidName(name)
    ensures Run(c, s, [Begin(pid, name, caller, Transfer(packet), o)] + Advances(pid, [oks.0, oks.1], o))
      == if !oks.0 || name in s.tasks then s
         else s.(bindings := if oks.1 && packet.Some? then s.bindings[name := packet.value] else s.bindings - {name})
  {
    var begin, answers := Begin(pid, name, caller, Transfer(packet), o), [oks.0, oks.1];
    FollowIsRun(c, s, [begin] + Advances(pid, answers, o));
    assert ([begin] + Advances(pid, answers, o))[1..] == Advances(pid, answers, o);
    var held := Lone(s, pid, name, caller, TransferHolds(packet));
    assert Step(c, s, begin) == held;
    FollowAdvance(c, held, pid, answers, o);
    assert answers[1..] == [oks.1] && [oks.1][1..] == [];
    LoneTransfer(c, s, pid, name, caller, packet, oks.0, o);
    if oks.0 && name !in s.tasks {
      var cleared := s.(bindings := s.bindings - {name});
      FollowAdvance(c, Lone(cleared, pid, name, caller, TransferCleared(packet)), pid, [oks.1], o);
      LoneCleared(c, cleared, pid, name, caller, packet, oks.1, o);
      if packet.Some? {
        assert (s.bindings - {name})[name := packet.value] == s.bindings[name := packet.value];
      }
    } else {
      GoneStaysGone(c, s, pid, [oks.1], o);
    }
  }

  lemma LoneTransfer(c: Config, t: State, pid: nat, name: string, caller: int, packet: Option<Binding>, ok: bool,
                     o: Observation)
    requires t.processes == map[]
    ensures Step(c, Lone(t, pid, name, caller, TransferHolds(packet)), Advance(pid, ok, o))
      == if !ok || name in t.tasks then t
         else Lone(t.(bindings := t.bindings - {name}), pid, name, caller, TransferCleared(packet))
  {
    LoneIsEnabled(t, pid, name, caller, TransferHolds(packet), ok, o);
    if name !in t.tasks {
      assert t.tasks - {name} == t.tasks;
    }
  }

  lemma LoneCleared(c: Config, t: State, pid: nat, name: string, caller: int, packet: Option<Binding>, ok: bool,
                    o: Observation)
    requires t.processes == map[]
    ensures Step(c, Lone(t, pid, name, caller, TransferCleared(packet)), Advance(pid, ok, o))
      == if ok && packet.Some? then t.(bindings := t.bindings[name := packet.value]) else t
  {
    LoneIsEnabled(t, pid, name, caller, TransferCleared(packet), ok, o);
  }

  /** A task stop alone: the task state file goes if and only if the caller owns the active record and all succeeds. */
  lemma TaskStopAlone(c: Config, s: State, pid: nat, name: string, caller: int, oks: (bool, bool), o: Observation)
    requires s.processes == map[] && ValidName(name)
    ensures Run(c, s, [Begin(pid, name, caller, TaskStop, o)] + Advances(pid, [oks.0, oks.1], o))
      == if && oks.0 && oks.1 && caller == c.operator && IsActive(s.records, name)
            && Get(s.records, name).value.owner == caller
         then s.(tasks := s.tasks - {name}) else s
  {
    var begin, answers := Begin(pid, name, caller, TaskStop, o), [oks.0, oks.1];
    FollowIsRun(c, s, [begin] + Advances(pid, answers, o));
    assert ([begin] + Advances(pid, answers, o))[1..] == Advances(pid, answers, o);
    assert Step(c, s, begin) == Lone(s, pid, name, caller, TaskStopHolds(None));
    FollowAdvance(c, Lone(s, pid, name, caller, TaskStopHolds(None)), pid, answers, o);
    assert answers[1..] == [oks.1] && [oks.1][1..] == [];
    LoneStop(c, s, pid, name, caller, oks.0, o);
    FollowAdvance(c, Lone(s, pid, name, caller, TaskStopAuthorized(None)), pid, [oks.1], o);
    LoneStopAuthorized(c, s, pid, name, caller, oks.1, o);
    GoneStaysGone(c, s, pid, [oks.1], o);
  }

  lemma LoneStop(c: Config, t: State, pid: nat, name: string, caller: int, ok: bool, o: Observation)
    requires t.processes == map[]
    ensures Step(c, Lone(t, pid, name, caller, TaskStopHolds(None)), Advance(pid, ok, o))
      == if ok && caller == c.operator && IsActive(t.records, name) && Get(t.records, name).value.owner == caller
         then Lone(t, pid, name, caller, TaskStopAuthorized(None)) else t
  {
    LoneIsEnabled(t, pid, name, caller, TaskStopHolds(None), ok, o);
  }

  lemma LoneStopAuthorized(c: Config, t: State, pid: nat, name: string, caller: int, ok: bool, o: Observation)
    requires t.processes == map[]
    ensures Step(c, Lone(t, pid, name, caller, TaskStopAuthorized(None)), Advance(pid, ok, o))
      == if ok then t.(tasks := t.tasks - {name}) else t
  {
    LoneIsEnabled(t, pid, name, caller, TaskStopAuthorized(None), ok, o);
  }
}
