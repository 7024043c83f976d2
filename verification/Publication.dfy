/**
 The crash-recoverable publication protocol of restore_migration (tools/incus_sandbox/migration.py).
 Every decision of one attempt is taken on the disk it starts from, so an attempt is a list of file
 operations; a crash keeps a prefix of them, and may tear the operation it interrupts.
 */
module Publication {
  import opened Values
  import opened Workspace
  import opened Wrappers

  datatype Identity = Identity(migrationId: string, stateDigest: string)
  datatype Handoff = Handoff(task: string, unfinished: string)
  datatype MigrationResult = MigrationResult(identity: Identity, taskOwner: string,
                                             indexCount: nat, worktreeCount: nat, untrackedCount: nat,
                                             unfinished: string)

  /** One restore request: a validated packet, the tree its bundle holds, and the sandbox's name. */
  datatype Migration = Migration(packet: Packet, head: Tree, ignores: Tree -> set<Path>,
                                 identity: Identity, handoff: Handoff, sandbox: string)

  /** A private file: torn content is invalid JSON and reads as absent. */
  datatype File<T> = Absent | Torn | Whole(value: T)

  datatype Staging = Partial | Built(snapshot: Snapshot)

  datatype Disk = Disk(workspace: Option<Snapshot>, stagings: map<string, Staging>, bundles: set<string>,
                       ready: map<string, File<Identity>>, handoff: File<Handoff>, result: File<MigrationResult>)

  datatype Failure = DifferentMigration | NoMigrationRecord | VerificationFailed

  datatype Op =
    | ClearStagings
    | MakeStaging(id: string)
    | WriteBundle(id: string)
    | Build(id: string, snapshot: Snapshot)
    | WriteReady(id: string, identity: Identity)
    | Expose(id: string)
    | RemoveBundle(id: string)
    | WriteHandoff(handoff: Handoff)
    | WriteResult(result: MigrationResult)
    | RemoveReady(id: string)

  function Read<T>(f: File<T>): Option<T> {
    if f.Whole? then Some(f.value) else None
  }

  function ReadyOf(d: Disk, m: Migration): Option<Identity> {
    var id := m.identity.migrationId;
    if id in d.ready then Read(d.ready[id]) else None
  }

  function ResultOf(m: Migration): MigrationResult {
    MigrationResult(m.identity, m.sandbox, |m.packet.indexEntries|, |m.packet.worktree|, |m.packet.untracked|,
                    m.handoff.unfinished)
  }

  function Rebuilt(m: Migration): Snapshot {
    Reconstructed(m.packet, m.head, m.ignores)
  }

  // ---- file operations -----------------------------------------------------------

  function ApplyOp(d: Disk, op: Op): Disk {
    match op
    case ClearStagings => d.(stagings := map[])
    case MakeStaging(id) => d.(stagings := d.stagings[id := Partial])
    case WriteBundle(id) => d.(bundles := d.bundles + {id})
    case Build(id, snapshot) => d.(stagings := d.stagings[id := Built(snapshot)])
    case WriteReady(id, identity) => d.(ready := d.ready[id := Whole(identity)])
    case Expose(id) =>
      if id in d.stagings && d.stagings[id].Built?
      then d.(workspace := Some(d.stagings[id].snapshot), stagings := d.stagings - {id}) else d
    case RemoveBundle(id) => d.(bundles := d.bundles - {id})
    case WriteHandoff(handoff) => d.(handoff := Whole(handoff))
    case WriteResult(result) => d.(result := Whole(result))
    case RemoveReady(id) => d.(ready := d.ready - {id})
  }

  /** An interrupted operation: trees may be half removed or half built, files truncated. */
  function Tear(d: Disk, op: Op, left: set<string>): Disk {
    match op
    case ClearStagings => d.(stagings := map id | id in d.stagings && id in left :: Partial)
    case WriteBundle(id) => d.(bundles := d.bundles + {id})
    case Build(id, _) => d.(stagings := d.stagings[id := Partial])
    case WriteReady(id, _) => d.(ready := d.ready[id := Torn])
    case WriteHandoff(_) => d.(handoff := Torn)
    case WriteResult(_) => d.(result := Torn)
    case _ => d
  }

  function ApplyAll(d: Disk, ops: seq<Op>): Disk
    decreases |ops|
  {
    if ops == [] then d else ApplyAll(ApplyOp(d, ops[0]), ops[1..])
  }

  // ---- one attempt -------------------------------------------------------------------

  function PublishOps(m: Migration): seq<Op> {
    [WriteHandoff(m.handoff), WriteResult(ResultOf(m)), RemoveReady(m.identity.migrationId)]
  }

  function BuildOps(m: Migration): seq<Op> {
    var id := m.identity.migrationId;
    [ClearStagings, MakeStaging(id), WriteBundle(id), Build(id, Rebuilt(m))]
  }

  function ExposeOps(m: Migration): seq<Op> {
    var id := m.identity.migrationId;
    [WriteReady(id, m.identity), Expose(id), RemoveBundle(id)]
  }

  datatype Plan = Plan(ops: seq<Op>, outcome: Result<MigrationResult, Failure>)

  function RecoverPlan(m: Migration, d: Disk, exposed: Snapshot): Plan {
    var existing := Read(d.result);
    if existing.Some? && existing.value.identity == m.identity then
      if !Verified(m.packet, exposed) then Plan([], Err(VerificationFailed))
      else
        Plan(if ReadyOf(d, m) == Some(m.identity) then [RemoveReady(m.identity.migrationId)] else [],
             Ok(existing.value))
    else if existing.Some? then Plan([], Err(DifferentMigration))
    else if ReadyOf(d, m) != Some(m.identity) then Plan([], Err(NoMigrationRecord))
    else if !Verified(m.packet, exposed) then Plan([], Err(VerificationFailed))
    else Plan(PublishOps(m), Ok(ResultOf(m)))
  }

  function StagePlan(m: Migration): Plan {
    if Verified(m.packet, Rebuilt(m)) then
      Plan(BuildOps(m) + ExposeOps(m) + PublishOps(m), Ok(ResultOf(m)))
    else
      Plan(BuildOps(m) + [RemoveBundle(m.identity.migrationId)], Err(VerificationFailed))
  }

  function PlanOf(m: Migration, d: Disk): Plan {
    if d.workspace.Some? then RecoverPlan(m, d, d.workspace.value) else StagePlan(m)
  }

  /** How an attempt ends: completely, after some operations, or in the middle of one. */
  datatype Stop = Completes | After(count: nat) | Tears(at: nat, left: set<string>)

  datatype Attempt = Attempt(migration: Migration, stop: Stop)

  function Perform(d: Disk, a: Attempt): Disk {
    var ops := PlanOf(a.migration, d).ops;
    match a.stop
    case Completes => ApplyAll(d, ops)
    case After(k) => ApplyAll(d, if k < |ops| then ops[..k] else ops)
    case Tears(k, left) =>
      if k < |ops| then Tear(ApplyAll(d, ops[..k]), ops[k], left) else ApplyAll(d, ops)
  }

  function PerformAll(d: Disk, attempts: seq<Attempt>): Disk
    decreases |attempts|
  {
    if attempts == [] then d else PerformAll(Perform(d, attempts[0]), attempts[1..])
  }

  /** A destination never used before. */
  const Fresh := Disk(None, map[], {}, map[], Absent, Absent)

  // ---- the guest's own code ------------------------------------------------------------

  class Guest {
    var workspace: Option<Snapshot>
    var stagings: map<string, Staging>
    var bundles: set<string>
    var ready: map<string, File<Identity>>
    var handoff: File<Handoff>
    var result: File<MigrationResult>

    constructor ()
      ensures View() == Fresh
    {
      workspace, stagings, bundles := None, map[], {};
      ready, handoff, result := map[], Absent, Absent;
    }

    function View(): Disk
      reads this
    {
      Disk(workspace, stagings, bundles, ready, handoff, result)
    }

    method PublishResult(m: Migration)
      modifies this
      ensures View() == ApplyAll(old(View()), PublishOps(m))
    {
      handoff := Whole(m.handoff);
      result := Whole(ResultOf(m));
      ready := ready - {m.identity.migrationId};
      ApplyThree(old(View()), PublishOps(m));
    }

    method RecoverWorkspace(m: Migration, exposed: Snapshot) returns (outcome: Result<MigrationResult, Failure>)
      requires workspace == Some(exposed)
      modifies this
      ensures var plan := RecoverPlan(m, old(View()), exposed);
        View() == ApplyAll(old(View()), plan.ops) && outcome == plan.outcome
    {
      var existing := Read(result);
      if existing.Some? && existing.value.identity == m.identity {
        if !Verified(m.packet, exposed) {
          return Err(VerificationFailed);
        }
        if ReadyOf(View(), m) == Some(m.identity) {
          ready := ready - {m.identity.migrationId};
          ApplyOne(old(View()), RemoveReady(m.identity.migrationId));
        }
        return Ok(existing.value);
      }
      if existing.Some? {
        return Err(DifferentMigration);
      }
      if ReadyOf(View(), m) != Some(m.identity) {
        return Err(NoMigrationRecord);
      }
      if !Verified(m.packet, exposed) {
        return Err(VerificationFailed);
      }
      PublishResult(m);
      outcome := Ok(ResultOf(m));
    }

    /** Rebuild in a staging directory and verify the reconstruction. */
    method BuildStaging(m: Migration) returns (verified: bool)
      requires WellFormed(m.packet)
      modifies this
      ensures verified <==> Verified(m.packet, Rebuilt(m))
      ensures View() == ApplyAll(old(View()), BuildOps(m))
      ensures m.identity.migrationId in stagings && stagings[m.identity.migrationId] == Built(Rebuilt(m))
    {
      var id := m.identity.migrationId;
      stagings := map[];
      stagings := stagings[id := Partial];
      bundles := bundles + {id};
      var checkout := new Checkout(m.packet.commit, m.packet.branch, m.head, m.ignores);
      checkout.ApplyEntries(m.packet);
      stagings := stagings[id := Built(checkout.View())];
      verified := checkout.VerifyEntries(m.packet);
      ApplyFour(old(View()), BuildOps(m));
    }

    method ExposeStaging(m: Migration)
      requires m.identity.migrationId in stagings && stagings[m.identity.migrationId].Built?
      modifies this
      ensures View() == ApplyAll(old(View()), ExposeOps(m))
    {
      var id := m.identity.migrationId;
      ready := ready[id := Whole(m.identity)];
      workspace := Some(stagings[id].snapshot);
      stagings := stagings - {id};
      bundles := bundles - {id};
      ApplyThree(old(View()), ExposeOps(m));
    }

    /** Build, then mark and expose the staging directory only if it verified. */
    method StageWorkspace(m: Migration) returns (verified: bool)
      requires WellFormed(m.packet)
      modifies this
      ensures verified <==> Verified(m.packet, Rebuilt(m))
      ensures View() == ApplyAll(old(View()),
        BuildOps(m) + if verified then ExposeOps(m) else [RemoveBundle(m.identity.migrationId)])
    {
      verified := BuildStaging(m);
      ghost var built := View();
      if verified {
        ExposeStaging(m);
        ApplyConcat(old(View()), BuildOps(m), ExposeOps(m));
      } else {
        bundles := bundles - {m.identity.migrationId};
        ApplyOne(built, RemoveBundle(m.identity.migrationId));
        ApplyConcat(old(View()), BuildOps(m), [RemoveBundle(m.identity.migrationId)]);
      }
    }

    method RestoreMigration(m: Migration) returns (outcome: Result<MigrationResult, Failure>)
      requires WellFormed(m.packet)
      modifies this
      ensures var plan := PlanOf(m, old(View()));
        View() == ApplyAll(old(View()), plan.ops) && outcome == plan.outcome
    {
      if workspace.Some? {
        outcome := RecoverWorkspace(m, workspace.value);
        return;
      }
      var verified := StageWorkspace(m);
      if !verified {
        return Err(VerificationFailed);
      }
      ApplyConcat(old(View()), BuildOps(m) + ExposeOps(m), PublishOps(m));
      PublishResult(m);
      outcome := Ok(ResultOf(m));
    }
  }

  lemma {:induction false} ApplyConcat(d: Disk, a: seq<Op>, b: seq<Op>)
    ensures ApplyAll(d, a + b) == ApplyAll(ApplyAll(d, a), b)
    decreases |a|
  {
    if a == [] {
      assert a + b == b;
    } else {
      assert (a + b)[1..] == a[1..] + b;
      ApplyConcat(ApplyOp(d, a[0]), a[1..], b);
    }
  }

  lemma ApplyOne(d: Disk, op: Op)
    ensures ApplyAll(d, [op]) == ApplyOp(d, op)
  {
    assert [op][1..] == [];
  }

  lemma ApplyThree(d: Disk, ops: seq<Op>)
    requires |ops| == 3
    ensures ApplyAll(d, ops) == ApplyOp(ApplyOp(ApplyOp(d, ops[0]), ops[1]), ops[2])
  {
    ApplyOne(ApplyOp(ApplyOp(d, ops[0]), ops[1]), ops[2]);
    assert ops[1..][1..] == [ops[2]];
  }

  lemma ApplyFour(d: Disk, ops: seq<Op>)
    requires |ops| == 4
    ensures ApplyAll(d, ops) == ApplyOp(ApplyOp(ApplyOp(ApplyOp(d, ops[0]), ops[1]), ops[2]), ops[3])
  {
    ApplyThree(ApplyOp(d, ops[0]), ops[1..]);
  }

  // ---- the disk after every operation of an attempt ------------------------------------------

  /** The disk after k operations of staging and publishing over d. */
  function StageState(d: Disk, m: Migration, k: nat): Disk {
    var id := m.identity.migrationId;
    Disk(if k >= 6 then Some(Rebuilt(m)) else d.workspace,
         if k == 0 then d.stagings else if k == 1 || k >= 6 then map[]
         else if k <= 3 then map[id := Partial] else map[id := Built(Rebuilt(m))],
         if k < 3 then d.bundles else if k < 7 then d.bundles + {id} else d.bundles - {id},
         if k < 5 then d.ready else if k < 10 then d.ready[id := Whole(m.identity)] else d.ready - {id},
         if k < 8 then d.handoff else Whole(m.handoff),
         if k < 9 then d.result else Whole(ResultOf(m)))
  }

  /** The disk after k operations of finishing the publication of an exposed workspace. */
  function RecoverState(d: Disk, m: Migration, k: nat): Disk {
    d.(handoff := if k < 1 then d.handoff else Whole(m.handoff),
       result := if k < 2 then d.result else Whole(ResultOf(m)),
       ready := if k < 3 then d.ready else d.ready - {m.identity.migrationId})
  }

  function StageOps(m: Migration): seq<Op> {
    BuildOps(m) + ExposeOps(m) + PublishOps(m)
  }

  lemma {:induction false} StageStates(d: Disk, m: Migration, k: nat)
    requires k <= 10
    ensures ApplyAll(d, StageOps(m)[..k]) == StageState(d, m, k)
  {
    if k > 0 {
      var ops := StageOps(m);
      StageStates(d, m, k - 1);
      assert ops[..k] == ops[..k - 1] + [ops[k - 1]];
      ApplyConcat(d, ops[..k - 1], [ops[k - 1]]);
      ApplyOne(StageState(d, m, k - 1), ops[k - 1]);
      StageStep(d, m, k - 1);
    }
  }

  lemma StageStep(d: Disk, m: Migration, k: nat)
    requires k < 10
    ensures ApplyOp(StageState(d, m, k), StageOps(m)[k]) == StageState(d, m, k + 1)
  {
    if k < 4 {
      assert StageOps(m)[k] == BuildOps(m)[k];
    } else if k < 7 {
      assert StageOps(m)[k] == ExposeOps(m)[k - 4];
      ExposeStep(d, m, k);
    } else {
      assert StageOps(m)[k] == PublishOps(m)[k - 7];
      PublishStep(d, m, k);
    }
  }

  lemma ExposeStep(d: Disk, m: Migration, k: nat)
    requires 4 <= k < 7
    ensures ApplyOp(StageState(d, m, k), ExposeOps(m)[k - 4]) == StageState(d, m, k + 1)
  {
    var id := m.identity.migrationId;
    var staged := map[id := Built(Rebuilt(m))];
    assert staged - {id} == map[];
    assert d.bundles + {id} - {id} == d.bundles - {id};
  }

  lemma PublishStep(d: Disk, m: Migration, k: nat)
    requires 7 <= k < 10
    ensures ApplyOp(StageState(d, m, k), PublishOps(m)[k - 7]) == StageState(d, m, k + 1)
  {
    var id := m.identity.migrationId;
    assert d.ready[id := Whole(m.identity)] - {id} == d.ready - {id};
  }

  lemma {:induction false} RecoverStates(d: Disk, m: Migration, k: nat)
    requires k <= 3
    ensures ApplyAll(d, PublishOps(m)[..k]) == RecoverState(d, m, k)
  {
    if k > 0 {
      var ops := PublishOps(m);
      RecoverStates(d, m, k - 1);
      assert ops[..k] == ops[..k - 1] + [ops[k - 1]];
      ApplyConcat(d, ops[..k - 1], [ops[k - 1]]);
      ApplyOne(RecoverState(d, m, k - 1), ops[k - 1]);
    }
  }

  /** Where an attempt's stop leaves it: how many operations ran, and whether the next one was torn. */
  function Ran(stop: Stop, total: nat): nat {
    match stop
    case Completes => total
    case After(k) => if k < total then k else total
    case Tears(k, _) => if k < total then k else total
  }

  lemma PerformIsPrefix(d: Disk, a: Attempt)
    ensures var ops := PlanOf(a.migration, d).ops;
      var k := Ran(a.stop, |ops|);
      var reached := ApplyAll(d, ops[..k]);
      Perform(d, a) == if a.stop.Tears? && k < |ops| then Tear(reached, ops[k], a.stop.left) else reached
  {
    var ops := PlanOf(a.migration, d).ops;
    assert ops[..|ops|] == ops;
  }

  // ---- nothing is published unverified ---------------------------------------------------

  /** A complete result stands beside its own handoff and the workspace it verified. */
  ghost predicate PublishedBy(d: Disk, m: Migration) {
    && d.result == Whole(ResultOf(m))
    && d.handoff == Whole(m.handoff)
    && d.workspace.Some? && Verified(m.packet, d.workspace.value)
  }

  /** One attempt, whatever its packet and wherever it stops, publishes only what it verified. */
  lemma AttemptIsSound(d: Disk, a: Attempt)
    requires d.result.Whole? ==> d.workspace.Some?
    ensures var after := Perform(d, a);
      if d.result.Whole?
      then after.result == d.result && after.handoff == d.handoff && after.workspace == d.workspace
      else after.result.Whole? ==> PublishedBy(after, a.migration)
  {
    var m := a.migration;
    PerformIsPrefix(d, a);
    if d.workspace.Some? {
      RecoveryIsSound(d, a);
    } else if Verified(m.packet, Rebuilt(m)) {
      StagingAttemptIsSound(d, a);
    } else {
      FailedStates(d, m, Ran(a.stop, 5));
    }
  }

  lemma StagingAttemptIsSound(d: Disk, a: Attempt)
    requires d.workspace.None? && !d.result.Whole? && Verified(a.migration.packet, Rebuilt(a.migration))
    ensures Perform(d, a).result.Whole? ==> PublishedBy(Perform(d, a), a.migration)
  {
    var m := a.migration;
    var k := Ran(a.stop, 10);
    PerformIsPrefix(d, a);
    assert PlanOf(m, d).ops == StageOps(m) && |StageOps(m)| == 10;
    StageStates(d, m, k);
    StagingIsSound(d, m, k, a.stop);
  }

  /** A torn operation exposes nothing and completes no file. */
  lemma TearNeverPublishes(d: Disk, op: Op, left: set<string>)
    ensures var torn := Tear(d, op, left);
      && torn.workspace == d.workspace
      && (torn.result == d.result || torn.result.Torn?)
      && (torn.handoff == d.handoff || (torn.handoff.Torn? && op.WriteHandoff?))
  {
  }

  lemma LastOpRemovesReady(m: Migration)
    ensures StageOps(m)[9] == RemoveReady(m.identity.migrationId)
  {
    assert StageOps(m)[9] == PublishOps(m)[2];
  }

  lemma StagingIsSound(d: Disk, m: Migration, k: nat, stop: Stop)
    requires d.workspace.None? && !d.result.Whole? && Verified(m.packet, Rebuilt(m)) && k <= 10
    ensures StageState(d, m, k).result.Whole? ==> PublishedBy(StageState(d, m, k), m)
    ensures k < 10 && stop.Tears? && Tear(StageState(d, m, k), StageOps(m)[k], stop.left).result.Whole?
      ==> PublishedBy(Tear(StageState(d, m, k), StageOps(m)[k], stop.left), m)
  {
    if k < 10 && stop.Tears? {
      TearNeverPublishes(StageState(d, m, k), StageOps(m)[k], stop.left);
      if k == 9 {
        LastOpRemovesReady(m);
      }
    }
  }

  lemma RecoveryIsSound(d: Disk, a: Attempt)
    requires d.workspace.Some?
    ensures var after := Perform(d, a);
      if d.result.Whole?
      then after.result == d.result && after.handoff == d.handoff && after.workspace == d.workspace
      else after.result.Whole? ==> PublishedBy(after, a.migration)
  {
    var ops := PlanOf(a.migration, d).ops;
    var k := Ran(a.stop, |ops|);
    PerformIsPrefix(d, a);
    if |ops| == 3 {
      RecoverStates(d, a.migration, k);
    } else if |ops| == 1 && k == 1 {
      ApplyOne(d, ops[0]);
      assert ops[..1] == [ops[0]];
    }
  }

  /** An attempt whose reconstruction does not verify touches no publication file. */
  lemma FailedStates(d: Disk, m: Migration, k: nat)
    requires k <= 5
    ensures var after := ApplyAll(d, (BuildOps(m) + [RemoveBundle(m.identity.migrationId)])[..k]);
      after == d.(stagings := after.stagings, bundles := after.bundles)
  {
    var ops := BuildOps(m) + [RemoveBundle(m.identity.migrationId)];
    if k <= 4 {
      StageStates(d, m, k);
      assert ops[..k] == StageOps(m)[..k];
    } else {
      StageStates(d, m, 4);
      assert ops[..4] == StageOps(m)[..4] && ops[..5] == ops[..4] + [ops[4]];
      ApplyConcat(d, ops[..4], [ops[4]]);
      ApplyOne(StageState(d, m, 4), ops[4]);
    }
  }

  /**
   In every run of attempts, with any packets and any stops, a complete result always stands beside
   the handoff of the packet it names and a workspace that passes that packet's verification.
   */
  lemma {:induction false} EveryResultIsHandedOff(d: Disk, attempts: seq<Attempt>)
    requires !d.result.Whole?
    ensures var after := PerformAll(d, attempts);
      after.result.Whole? ==> exists i :: 0 <= i < |attempts| && PublishedBy(after, attempts[i].migration)
    decreases |attempts|
  {
    if attempts != [] {
      var next := Perform(d, attempts[0]);
      AttemptIsSound(d, attempts[0]);
      if next.result.Whole? {
        PublishedStays(next, attempts[0].migration, attempts[1..]);
        assert PublishedBy(PerformAll(d, attempts), attempts[0].migration);
      } else {
        EveryResultIsHandedOff(next, attempts[1..]);
        assert forall i :: 0 <= i < |attempts[1..]| ==> attempts[1..][i] == attempts[i + 1];
      }
    }
  }

  lemma {:induction false} PublishedStays(d: Disk, m: Migration, attempts: seq<Attempt>)
    requires PublishedBy(d, m)
    ensures PublishedBy(PerformAll(d, attempts), m)
    decreases |attempts|
  {
    if attempts != [] {
      AttemptIsSound(d, attempts[0]);
      PublishedStays(Perform(d, attempts[0]), m, attempts[1..]);
    }
  }

  // ---- convergence ------------------------------------------------------------------------

  /** The three situations a destination passes through while one migration is retried. */
  ghost predicate Waiting(d: Disk, m: Migration) {
    d.workspace.None? && Read(d.result).None?
  }

  ghost predicate Exposed(d: Disk, m: Migration) {
    && d.workspace == Some(Rebuilt(m)) && d.stagings == map[]
    && Read(d.result).None? && ReadyOf(d, m) == Some(m.identity)
  }

  ghost predicate Published(d: Disk, m: Migration) {
    && d.workspace == Some(Rebuilt(m)) && d.stagings == map[]
    && d.result == Whole(ResultOf(m)) && d.handoff == Whole(m.handoff)
    && (m.identity.migrationId in d.ready ==> ReadyOf(d, m) == Some(m.identity))
  }

  ghost predicate OnTrack(d: Disk, m: Migration, origin: Disk) {
    && (Waiting(d, m) || Exposed(d, m) || Published(d, m))
    && d.ready - {m.identity.migrationId} == origin.ready - {m.identity.migrationId}
  }

  lemma AttemptStaysOnTrack(d: Disk, a: Attempt, origin: Disk)
    requires OnTrack(d, a.migration, origin) && Verified(a.migration.packet, Rebuilt(a.migration))
    ensures OnTrack(Perform(d, a), a.migration, origin)
  {
    var m := a.migration;
    var plan := PlanOf(m, d);
    var k := Ran(a.stop, |plan.ops|);
    PerformIsPrefix(d, a);
    if Waiting(d, m) {
      StageStates(d, m, k);
      WaitingProgress(d, m, k, a.stop, origin);
    } else if Exposed(d, m) {
      RecoverStates(d, m, k);
    } else {
      PublishedPlan(d, m);
      PublishedProgress(d, m, origin);
      assert plan.ops != [] ==> plan.ops[..1] == plan.ops;
    }
  }

  lemma PublishedProgress(d: Disk, m: Migration, origin: Disk)
    requires Published(d, m) && OnTrack(d, m, origin)
    ensures ApplyAll(d, [RemoveReady(m.identity.migrationId)]) == d.(ready := d.ready - {m.identity.migrationId})
    ensures OnTrack(d.(ready := d.ready - {m.identity.migrationId}), m, origin)
  {
    var id := m.identity.migrationId;
    ApplyOne(d, RemoveReady(id));
    assert d.ready - {id} - {id} == d.ready - {id};
  }

  lemma StagedIsOnTrack(d: Disk, m: Migration, k: nat, origin: Disk)
    requires Waiting(d, m) && k <= 10 && OnTrack(d, m, origin)
    ensures OnTrack(StageState(d, m, k), m, origin)
    ensures k <= 5 ==> Waiting(StageState(d, m, k), m)
    ensures 6 <= k <= 8 ==> Exposed(StageState(d, m, k), m)
    ensures 9 <= k ==> Published(StageState(d, m, k), m)
  {
    var id := m.identity.migrationId;
    assert d.ready[id := Whole(m.identity)] - {id} == d.ready - {id};
    assert d.ready - {id} - {id} == d.ready - {id};
  }

  /** A torn operation of the staging half leaves the destination waiting. */
  lemma TornStagingWaits(d: Disk, m: Migration, k: nat, left: set<string>, origin: Disk)
    requires Waiting(d, m) && k < 6 && OnTrack(d, m, origin)
    ensures OnTrack(Tear(StageState(d, m, k), StageOps(m)[k], left), m, origin)
  {
    var id := m.identity.migrationId;
    StagedIsOnTrack(d, m, k, origin);
    if k < 4 {
      assert StageOps(m)[k] == BuildOps(m)[k];
    } else {
      assert StageOps(m)[k] == ExposeOps(m)[k - 4];
      assert d.ready[id := Torn] - {id} == d.ready - {id};
    }
  }

  /** A torn operation of the publishing half leaves it exposed, or published. */
  lemma TornPublishing(d: Disk, m: Migration, k: nat, left: set<string>, origin: Disk)
    requires Waiting(d, m) && 6 <= k < 10 && OnTrack(d, m, origin)
    ensures OnTrack(Tear(StageState(d, m, k), StageOps(m)[k], left), m, origin)
  {
    StagedIsOnTrack(d, m, k, origin);
    if k == 6 {
      assert StageOps(m)[k] == ExposeOps(m)[2];
    } else {
      assert StageOps(m)[k] == PublishOps(m)[k - 7];
    }
  }

  lemma WaitingProgress(d: Disk, m: Migration, k: nat, stop: Stop, origin: Disk)
    requires Waiting(d, m) && k <= 10 && OnTrack(d, m, origin)
    ensures OnTrack(StageState(d, m, k), m, origin)
    ensures k < 10 && stop.Tears? ==> OnTrack(Tear(StageState(d, m, k), StageOps(m)[k], stop.left), m, origin)
  {
    StagedIsOnTrack(d, m, k, origin);
    if stop.Tears? {
      if k < 6 {
        TornStagingWaits(d, m, k, stop.left, origin);
      } else if k < 10 {
        TornPublishing(d, m, k, stop.left, origin);
      }
    }
  }

  ghost predicate AllOf(m: Migration, attempts: seq<Attempt>) {
    forall i :: 0 <= i < |attempts| ==> attempts[i].migration == m
  }

  lemma {:induction false} AttemptsStayOnTrack(d: Disk, m: Migration, attempts: seq<Attempt>, origin: Disk)
    requires OnTrack(d, m, origin) && AllOf(m, attempts) && Verified(m.packet, Rebuilt(m))
    ensures OnTrack(PerformAll(d, attempts), m, origin)
    decreases |attempts|
  {
    if attempts != [] {
      AttemptStaysOnTrack(d, attempts[0], origin);
      AttemptsStayOnTrack(Perform(d, attempts[0]), m, attempts[1..], origin);
    }
  }

  /** What an uninterrupted restore leaves from any situation on the way. */
  lemma CompletionFinishes(d: Disk, m: Migration, origin: Disk)
    requires OnTrack(d, m, origin) && Verified(m.packet, Rebuilt(m))
    ensures PlanOf(m, d).outcome == Ok(ResultOf(m))
    ensures var after := Perform(d, Attempt(m, Completes));
      after == Disk(Some(Rebuilt(m)), map[], after.bundles, origin.ready - {m.identity.migrationId},
                    Whole(m.handoff), Whole(ResultOf(m)))
  {
    var id, plan := m.identity.migrationId, PlanOf(m, d);
    PerformIsPrefix(d, Attempt(m, Completes));
    if Waiting(d, m) {
      StageStates(d, m, 10);
      assert StageOps(m)[..10] == StageOps(m);
    } else if Exposed(d, m) {
      RecoverStates(d, m, 3);
      assert PublishOps(m)[..3] == PublishOps(m);
    } else {
      PublishedCompletes(d, m);
    }
  }

  lemma PublishedPlan(d: Disk, m: Migration)
    requires Published(d, m) && Verified(m.packet, Rebuilt(m))
    ensures PlanOf(m, d)
      == Plan(if m.identity.migrationId in d.ready then [RemoveReady(m.identity.migrationId)] else [], Ok(ResultOf(m)))
  {
  }

  lemma PublishedCompletes(d: Disk, m: Migration)
    requires Published(d, m) && Verified(m.packet, Rebuilt(m))
    ensures PlanOf(m, d).outcome == Ok(ResultOf(m))
    ensures Perform(d, Attempt(m, Completes)) == d.(ready := d.ready - {m.identity.migrationId})
  {
    var id := m.identity.migrationId;
    PublishedPlan(d, m);
    if id in d.ready {
      ApplyOne(d, RemoveReady(id));
    } else {
      assert d.ready - {id} == d.ready;
    }
  }

  /**
   Crash convergence: starting without a workspace or a complete result, after any number of
   attempts at one migration that stop anywhere, the next uninterrupted restore succeeds and leaves
   the disk an uninterrupted first restore leaves. Only a transient bundle file may stay behind.
   */
  lemma CrashesConverge(d: Disk, m: Migration, attempts: seq<Attempt>)
    requires Waiting(d, m) && AllOf(m, attempts) && Verified(m.packet, Rebuilt(m))
    ensures var crashed := PerformAll(d, attempts);
      var retried, direct := Perform(crashed, Attempt(m, Completes)), Perform(d, Attempt(m, Completes));
      && PlanOf(m, crashed).outcome == PlanOf(m, d).outcome == Ok(ResultOf(m))
      && retried == direct.(bundles := retried.bundles)
      && PublishedBy(retried, m) && m.identity.migrationId !in retried.ready
  {
    AttemptsStayOnTrack(d, m, attempts, d);
    CompletionFinishes(PerformAll(d, attempts), m, d);
    CompletionFinishes(d, m, d);
  }

  // ---- the bundle file -------------------------------------------------------------------

  /** An attempt that gets through the rename, and not through the removal of the bundle behind it. */
  predicate StopsAfterRename(d: Disk, a: Attempt) {
    d.workspace.None? && Verified(a.migration.packet, Rebuilt(a.migration)) && Ran(a.stop, 10) == 6
  }

  /** One of the attempts stops there, on the disk the ones before it left. */
  ghost predicate SomeStopsAfterRename(d: Disk, attempts: seq<Attempt>) {
    exists i :: 0 <= i < |attempts| && StopsAfterRename(PerformAll(d, attempts[..i]), attempts[i])
  }

  lemma SomeStopsLater(d: Disk, attempts: seq<Attempt>)
    requires attempts != []
    ensures SomeStopsAfterRename(d, attempts)
      <==> StopsAfterRename(d, attempts[0]) || SomeStopsAfterRename(Perform(d, attempts[0]), attempts[1..])
  {
    var rest := attempts[1..];
    assert attempts[..0] == [];
    forall i | 0 <= i < |rest|
      ensures rest[i] == attempts[i + 1]
      ensures PerformAll(d, attempts[..i + 1]) == PerformAll(Perform(d, attempts[0]), rest[..i])
    {
      assert attempts[..i + 1][1..] == rest[..i];
    }
    if SomeStopsAfterRename(d, attempts) && !StopsAfterRename(d, attempts[0]) {
      var i :| 0 <= i < |attempts| && StopsAfterRename(PerformAll(d, attempts[..i]), attempts[i]);
      assert StopsAfterRename(PerformAll(Perform(d, attempts[0]), rest[..i - 1]), rest[i - 1]);
    }
    if StopsAfterRename(d, attempts[0]) {
      assert StopsAfterRename(PerformAll(d, attempts[..0]), attempts[0]);
    }
    if SomeStopsAfterRename(Perform(d, attempts[0]), rest) {
      var i :| 0 <= i < |rest| && StopsAfterRename(PerformAll(Perform(d, attempts[0]), rest[..i]), rest[i]);
      assert StopsAfterRename(PerformAll(d, attempts[..i + 1]), attempts[i + 1]);
    }
  }

  /** Once a workspace is exposed, no attempt touches a bundle again. */
  lemma ExposedKeepsBundles(d: Disk, a: Attempt)
    requires d.workspace.Some?
    ensures Perform(d, a).bundles == d.bundles && Perform(d, a).workspace == d.workspace
  {
    var m := a.migration;
    var ops := PlanOf(m, d).ops;
    PerformIsPrefix(d, a);
    if ops == PublishOps(m) {
      RecoverStates(d, m, Ran(a.stop, 3));
    } else if ops != [] {
      assert ops == [RemoveReady(m.identity.migrationId)] && ops[..1] == ops;
      ApplyOne(d, ops[0]);
    }
  }

  lemma {:induction false} ExposedStaysQuiet(d: Disk, attempts: seq<Attempt>)
    requires d.workspace.Some?
    ensures PerformAll(d, attempts).bundles == d.bundles && PerformAll(d, attempts).workspace == d.workspace
    ensures !SomeStopsAfterRename(d, attempts)
    decreases |attempts|
  {
    if attempts != [] {
      ExposedKeepsBundles(d, attempts[0]);
      ExposedStaysQuiet(Perform(d, attempts[0]), attempts[1..]);
      SomeStopsLater(d, attempts);
    }
  }

  lemma LateOpsKeepBundle(m: Migration, k: nat)
    requires 6 <= k < 10
    ensures var op := StageOps(m)[k];
      if k == 6 then op == RemoveBundle(m.identity.migrationId) else op == PublishOps(m)[k - 7]
  {
    if k == 6 {
      assert StageOps(m)[k] == ExposeOps(m)[2];
    } else {
      assert StageOps(m)[k] == PublishOps(m)[k - 7];
    }
  }

  /** The workspace is exposed from the rename on, and from then on the bundle is there before its removal only. */
  ghost predicate BundleFollowsRename(after: Disk, id: string, k: nat) {
    && (after.workspace.Some? <==> k >= 6)
    && (k >= 6 ==> (id in after.bundles <==> k == 6))
  }

  lemma StagedBundle(d: Disk, m: Migration, k: nat)
    requires d.workspace.None? && k <= 10
    ensures BundleFollowsRename(StageState(d, m, k), m.identity.migrationId, k)
  {
  }

  lemma TornBundle(d: Disk, m: Migration, k: nat, left: set<string>)
    requires d.workspace.None? && k < 10
    ensures BundleFollowsRename(Tear(StageState(d, m, k), StageOps(m)[k], left), m.identity.migrationId, k)
  {
    StagedBundle(d, m, k);
    TearNeverPublishes(StageState(d, m, k), StageOps(m)[k], left);
    if k >= 6 {
      LateOpsKeepBundle(m, k);
    }
  }

  /** An attempt that exposes the workspace leaves the bundle exactly when it stops after the rename. */
  lemma StagingLeavesBundleIff(d: Disk, a: Attempt)
    requires d.workspace.None? && Verified(a.migration.packet, Rebuilt(a.migration))
    ensures BundleFollowsRename(Perform(d, a), a.migration.identity.migrationId, Ran(a.stop, 10))
  {
    var m := a.migration;
    var k := Ran(a.stop, 10);
    PerformIsPrefix(d, a);
    assert PlanOf(m, d).ops == StageOps(m) && |StageOps(m)| == 10;
    StageStates(d, m, k);
    StagedBundle(d, m, k);
    if a.stop.Tears? && k < 10 {
      TornBundle(d, m, k, a.stop.left);
    }
  }

  lemma UnverifiedRemovesBundle(d: Disk, m: Migration)
    requires d.workspace.None? && !Verified(m.packet, Rebuilt(m))
    ensures m.identity.migrationId !in Perform(d, Attempt(m, Completes)).bundles
  {
    var last := RemoveBundle(m.identity.migrationId);
    ApplyConcat(d, BuildOps(m), [last]);
    ApplyOne(ApplyAll(d, BuildOps(m)), last);
  }

  /** A failed reconstruction exposes nothing. */
  lemma UnverifiedExposesNothing(d: Disk, a: Attempt)
    requires d.workspace.None? && !Verified(a.migration.packet, Rebuilt(a.migration))
    ensures Perform(d, a).workspace.None?
  {
    var m := a.migration;
    var k := Ran(a.stop, 5);
    PerformIsPrefix(d, a);
    assert |PlanOf(m, d).ops| == 5;
    FailedStates(d, m, k);
    if a.stop.Tears? && k < 5 {
      TearNeverPublishes(ApplyAll(d, PlanOf(m, d).ops[..k]), PlanOf(m, d).ops[k], a.stop.left);
    }
  }

  /**
   The bundle file stays behind for good if and only if some attempt stops exactly after the rename:
   whatever the destination holds at first, every completed restore behind any attempts removes it
   otherwise.
   */
  lemma {:induction false} BundleStaysIffStoppedAfterRename(d: Disk, m: Migration, attempts: seq<Attempt>)
    requires d.workspace.None? && AllOf(m, attempts)
    ensures m.identity.migrationId in Perform(PerformAll(d, attempts), Attempt(m, Completes)).bundles
      <==> SomeStopsAfterRename(d, attempts)
    decreases |attempts|
  {
    var completion := Attempt(m, Completes);
    if attempts == [] {
      if Verified(m.packet, Rebuilt(m)) {
        StagingLeavesBundleIff(d, completion);
      } else {
        UnverifiedRemovesBundle(d, m);
      }
    } else {
      var a, rest := attempts[0], attempts[1..];
      var next := Perform(d, a);
      SomeStopsLater(d, attempts);
      if Verified(m.packet, Rebuilt(m)) {
        StagingLeavesBundleIff(d, a);
      } else {
        UnverifiedExposesNothing(d, a);
      }
      if next.workspace.None? {
        BundleStaysIffStoppedAfterRename(next, m, rest);
      } else {
        ExposedStaysQuiet(next, rest);
        ExposedKeepsBundles(PerformAll(next, rest), completion);
      }
    }
  }

  /** The witness: a kill between the rename and the bundle's removal on a fresh destination. */
  lemma KillLeavesBundle(m: Migration)
    requires Verified(m.packet, Rebuilt(m))
    ensures var crashed := Perform(Fresh, Attempt(m, After(6)));
      Perform(crashed, Attempt(m, Completes)).bundles == {m.identity.migrationId}
    ensures Perform(Fresh, Attempt(m, Completes)).bundles == {}
  {
    StageStates(Fresh, m, 6);
    PerformIsPrefix(Fresh, Attempt(m, After(6)));
    var crashed := Perform(Fresh, Attempt(m, After(6)));
    RecoverStates(crashed, m, 3);
    PerformIsPrefix(crashed, Attempt(m, Completes));
    StageStates(Fresh, m, 10);
    PerformIsPrefix(Fresh, Attempt(m, Completes));
  }

  // ---- results left over from before ----------------------------------------------------------

  /** With another migration's result in place, a crash right after the rename blocks every retry. */
  lemma {:induction false} ForeignResultBlocksRecovery(d: Disk, m: Migration, attempts: seq<Attempt>)
    requires d.workspace == Some(Rebuilt(m)) && AllOf(m, attempts)
    requires d.result.Whole? && d.result.value.identity != m.identity
    ensures PerformAll(d, attempts) == d
    ensures PlanOf(m, d).outcome == Err(DifferentMigration)
    decreases |attempts|
  {
    if attempts != [] {
      PerformIsPrefix(d, attempts[0]);
      ForeignResultBlocksRecovery(d, m, attempts[1..]);
    }
  }

  /**
   Every situation from which the next uninterrupted restore succeeds: no foreign result, and no
   exposed workspace without a record.
   */
  ghost predicate Recoverable(d: Disk, m: Migration) {
    && (Read(d.result).Some? ==> Read(d.result).value.identity == m.identity)
    && (d.workspace.Some? ==>
          d.workspace == Some(Rebuilt(m)) && (Read(d.result).Some? || ReadyOf(d, m) == Some(m.identity)))
  }

  lemma StagedIsRecoverable(d: Disk, m: Migration, k: nat)
    requires Recoverable(d, m) && d.workspace.None? && k <= 10
    ensures Recoverable(StageState(d, m, k), m)
  {
  }

  lemma TornStageIsRecoverable(d: Disk, m: Migration, k: nat, left: set<string>)
    requires Recoverable(d, m) && d.workspace.None? && k < 10
    ensures Recoverable(Tear(StageState(d, m, k), StageOps(m)[k], left), m)
  {
    StagedIsRecoverable(d, m, k);
    TearNeverPublishes(StageState(d, m, k), StageOps(m)[k], left);
    if k == 6 {
      assert StageOps(m)[k] == ExposeOps(m)[2];
    } else if k > 6 {
      assert StageOps(m)[k] == PublishOps(m)[k - 7];
    }
  }

  lemma FinishingIsRecoverable(d: Disk, m: Migration, k: nat, stop: Stop)
    requires Recoverable(d, m) && ReadyOf(d, m) == Some(m.identity) && d.workspace.Some? && k <= 3
    ensures Recoverable(RecoverState(d, m, k), m)
    ensures k < 3 && stop.Tears? ==> Recoverable(Tear(RecoverState(d, m, k), PublishOps(m)[k], stop.left), m)
  {
  }

  lemma AttemptStaysRecoverable(d: Disk, a: Attempt)
    requires Recoverable(d, a.migration) && Verified(a.migration.packet, Rebuilt(a.migration))
    ensures Recoverable(Perform(d, a), a.migration)
  {
    var m := a.migration;
    PerformIsPrefix(d, a);
    if d.workspace.None? {
      var k := Ran(a.stop, 10);
      assert PlanOf(m, d).ops == StageOps(m) && |StageOps(m)| == 10;
      StageStates(d, m, k);
      StagedIsRecoverable(d, m, k);
      if a.stop.Tears? && k < 10 {
        TornStageIsRecoverable(d, m, k, a.stop.left);
      }
    } else if Read(d.result).None? {
      var k := Ran(a.stop, 3);
      assert PlanOf(m, d).ops == PublishOps(m);
      RecoverStates(d, m, k);
      FinishingIsRecoverable(d, m, k, a.stop);
    } else {
      RetiredIsRecoverable(d, m);
      var ops := PlanOf(m, d).ops;
      assert ops == [] || ops == [RemoveReady(m.identity.migrationId)];
      assert ops != [] ==> ops[..1] == ops;
    }
  }

  lemma RetiredIsRecoverable(d: Disk, m: Migration)
    requires Recoverable(d, m) && Read(d.result).Some?
    ensures Recoverable(ApplyAll(d, [RemoveReady(m.identity.migrationId)]), m)
  {
    ApplyOne(d, RemoveReady(m.identity.migrationId));
  }

  lemma {:induction false} AttemptsStayRecoverable(d: Disk, m: Migration, attempts: seq<Attempt>)
    requires Recoverable(d, m) && AllOf(m, attempts) && Verified(m.packet, Rebuilt(m))
    ensures PlanOf(m, PerformAll(d, attempts)).outcome.Ok?
    decreases |attempts|
  {
    if attempts != [] {
      AttemptStaysRecoverable(d, attempts[0]);
      AttemptsStayRecoverable(Perform(d, attempts[0]), m, attempts[1..]);
    }
  }

  /**
   The outcome: from a destination without a workspace, restoring returns a result after every
   sequence of crashed attempts if and only if no complete result of another migration was left over.
   */
  lemma ConvergesIffNoForeignResult(d: Disk, m: Migration)
    requires d.workspace.None? && Verified(m.packet, Rebuilt(m))
    ensures PlanOf(m, d).outcome.Ok?
    ensures (forall attempts :: AllOf(m, attempts) ==> PlanOf(m, PerformAll(d, attempts)).outcome.Ok?)
      <==> (Read(d.result).Some? ==> Read(d.result).value.identity == m.identity)
  {
    if Recoverable(d, m) {
      forall attempts | AllOf(m, attempts) ensures PlanOf(m, PerformAll(d, attempts)).outcome.Ok? {
        AttemptsStayRecoverable(d, m, attempts);
      }
    } else {
      var crash := Attempt(m, After(6));
      StageStates(d, m, 6);
      PerformIsPrefix(d, crash);
      ForeignResultBlocksRecovery(Perform(d, crash), m, []);
      assert PerformAll(d, [crash]) == Perform(d, crash) by {
        assert [crash][1..] == [];
      }
      assert AllOf(m, [crash]);
    }
  }

  /** What a completed restore leaves when it follows the attempts. */
  function Retried(d: Disk, m: Migration, attempts: seq<Attempt>): Disk {
    Perform(PerformAll(d, attempts), Attempt(m, Completes))
  }

  /** The retry ends on the disk of an uncrashed restore; the bundles have a condition of their own. */
  ghost predicate RetryConverges(d: Disk, m: Migration, attempts: seq<Attempt>) {
    Retried(d, m, attempts) == Retried(d, m, []).(bundles := Retried(d, m, attempts).bundles)
  }

  /** Behind a complete result, whoever's, nobody writes the handoff again. */
  lemma ResultFreezesHandoff(d: Disk, a: Attempt)
    requires d.workspace.Some? && d.result.Whole?
    ensures Perform(d, a).handoff == d.handoff && Perform(d, a).result == d.result
  {
    RecoveryIsSound(d, a);
  }

  lemma UncrashedHandsOff(d: Disk, m: Migration)
    requires d.workspace.None? && Verified(m.packet, Rebuilt(m))
    ensures Retried(d, m, []).handoff == Whole(m.handoff)
  {
    StageStates(d, m, 10);
    PerformIsPrefix(d, Attempt(m, Completes));
    assert StageOps(m)[..10] == StageOps(m);
  }

  /** With any complete result left over, tearing the handoff write loses the handoff for good. */
  lemma LeftoverLosesHandoff(d: Disk, m: Migration)
    requires d.workspace.None? && Verified(m.packet, Rebuilt(m)) && Read(d.result).Some?
    ensures Retried(d, m, [Attempt(m, Tears(7, {}))]).handoff == Torn
    ensures Retried(d, m, [Attempt(m, Tears(7, {}))]).result == d.result
  {
    var a := Attempt(m, Tears(7, {}));
    StageStates(d, m, 7);
    PerformIsPrefix(d, a);
    LateOpsKeepBundle(m, 7);
    assert Perform(d, a) == StageState(d, m, 7).(handoff := Torn);
    assert [a][1..] == [];
    assert PerformAll(d, [a]) == Perform(d, a);
    ResultFreezesHandoff(Perform(d, a), Attempt(m, Completes));
  }

  /**
   The final disk: from a destination without a workspace, a completed restore ends on the disk of an
   uncrashed one after every sequence of crashed attempts if and only if no complete result at all was
   left over, this migration's own included.
   */
  lemma DiskConvergesIffNoResult(d: Disk, m: Migration)
    requires d.workspace.None? && Verified(m.packet, Rebuilt(m))
    ensures (forall attempts :: AllOf(m, attempts) ==> RetryConverges(d, m, attempts)) <==> Read(d.result).None?
  {
    if Read(d.result).None? {
      forall attempts | AllOf(m, attempts) ensures RetryConverges(d, m, attempts) {
        CrashesConverge(d, m, attempts);
        assert PerformAll(d, []) == d;
      }
    } else {
      var attempts := [Attempt(m, Tears(7, {}))];
      LeftoverLosesHandoff(d, m);
      UncrashedHandsOff(d, m);
      assert AllOf(m, attempts) && !RetryConverges(d, m, attempts);
    }
  }

  /**
   The failing starts are real: when the workspace was removed and this migration's own result stayed,
   a kill after the rename makes every retry succeed without a handoff, and a torn handoff write makes
   it succeed beside a torn one.
   */
  lemma OwnResultHidesTheHandoff(m: Migration, handoff: File<Handoff>)
    requires Verified(m.packet, Rebuilt(m))
    ensures var d := Fresh.(result := Whole(ResultOf(m)), handoff := handoff);
      && PlanOf(m, PerformAll(d, [Attempt(m, After(6))])).outcome.Ok?
      && Retried(d, m, [Attempt(m, After(6))]).handoff == handoff
      && PlanOf(m, PerformAll(d, [Attempt(m, Tears(7, {}))])).outcome.Ok?
      && Retried(d, m, [Attempt(m, Tears(7, {}))]).handoff == Torn
      && Retried(d, m, []).handoff == Whole(m.handoff)
  {
    var d := Fresh.(result := Whole(ResultOf(m)), handoff := handoff);
    var kill, tear := Attempt(m, After(6)), Attempt(m, Tears(7, {}));
    AttemptsStayRecoverable(d, m, [kill]);
    AttemptsStayRecoverable(d, m, [tear]);
    StageStates(d, m, 6);
    PerformIsPrefix(d, kill);
    assert [kill][1..] == [];
    assert PerformAll(d, [kill]) == Perform(d, kill);
    ResultFreezesHandoff(Perform(d, kill), Attempt(m, Completes));
    LeftoverLosesHandoff(d, m);
    UncrashedHandsOff(d, m);
  }

  // ---- what one completed restore answers ----------------------------------------------------------------

  /** The checkout the destination holds once a restore has staged one, or the one it held. */
  function Uncovered(d: Disk, m: Migration): Snapshot {
    if d.workspace.Some? then d.workspace.value else Rebuilt(m)
  }

  /** An exposed workspace that this migration may finish: its own result, or no result and its own marker. */
  predicate MayFinish(d: Disk, m: Migration) {
    d.workspace.Some? ==>
      if Read(d.result).Some? then Read(d.result).value.identity == m.identity
      else m.identity.migrationId in d.ready && Read(d.ready[m.identity.migrationId]) == Some(m.identity)
  }

  /**
   A completed restore returns a result if and only if the destination is free or this migration's to
   finish, and the exposed checkout verifies; what it returns is then the result on the disk, of this
   migration, beside a workspace that verifies, with no ready marker of it.
   */
  lemma RestoreSucceedsIffItsOwn(d: Disk, m: Migration)
    ensures PlanOf(m, d).outcome.Ok? <==> MayFinish(d, m) && Verified(m.packet, Uncovered(d, m))
    ensures PlanOf(m, d).outcome.Ok? ==>
      var after, r := Perform(d, Attempt(m, Completes)), PlanOf(m, d).outcome.value;
      && after.result == Whole(r) && r.identity == m.identity
      && after.workspace == Some(Uncovered(d, m)) && Verified(m.packet, after.workspace.value)
      && ReadyOf(after, m) != Some(m.identity)
  {
    if PlanOf(m, d).outcome.Ok? {
      if d.workspace.Some? {
        FinishedStates(d, m);
      } else {
        assert StageOps(m)[..10] == StageOps(m);
        StageStates(d, m, 10);
      }
    }
  }

  lemma FinishedStates(d: Disk, m: Migration)
    requires d.workspace.Some? && PlanOf(m, d).outcome.Ok?
    ensures var after := Perform(d, Attempt(m, Completes));
      && after.result == Whole(PlanOf(m, d).outcome.value) && after.workspace == d.workspace
      && ReadyOf(after, m) != Some(m.identity)
  {
    var ops := PlanOf(m, d).ops;
    if |ops| == 3 {
      assert ops[..3] == ops;
      RecoverStates(d, m, 3);
    } else if |ops| == 1 {
      ApplyOne(d, ops[0]);
    }
  }

  /** A refusal leaves the destination's workspace, handoff, result and markers as they were. */
  lemma RefusalPublishesNothing(d: Disk, m: Migration)
    requires PlanOf(m, d).outcome.Err?
    ensures var after := Perform(d, Attempt(m, Completes));
      && after.workspace == d.workspace && after.handoff == d.handoff && after.result == d.result
      && after.ready == d.ready
  {
    if d.workspace.None? {
      var ops := BuildOps(m) + [RemoveBundle(m.identity.migrationId)];
      assert ops[..5] == ops;
      FailedStates(d, m, 5);
    }
  }
}
