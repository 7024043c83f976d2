/**
 From an accepted packet to a published result (tools/incus_sandbox/migration.py): whatever packets are
 tried and wherever the attempts stop, a result on the disk tells its own packet, beside that packet's
 handoff and a workspace with that packet's bytes.
 */
module PublishedPackets {
  import opened Wrappers
  import opened Values
  import opened MigrationPacket
  import opened PacketRestore
  import opened Publication
  import W = Workspace

  /** One call of restore_migration on a validated packet. */
  datatype Restore = Restore(m: Metadata, payload: Bytes, head: W.Tree, ignores: W.Tree -> set<W.Path>,
                             handoff: Handoff, sandbox: string, stop: Stop)

  /** What validation guarantees of the packet. */
  ghost predicate Accepted(r: Restore, h: Hashes) {
    ClosedSections(r.m, r.payload, h) && ClosedEntries(r.m)
  }

  function AttemptOf(r: Restore): Attempt {
    var identity := Identity(r.m.migrationId, r.m.stateDigest);
    Attempt(Migration(Captured(r.m, r.payload), r.head, r.ignores, identity, r.handoff, r.sandbox), r.stop)
  }

  function AttemptsOf(restores: seq<Restore>): (attempts: seq<Attempt>)
    ensures |attempts| == |restores| && forall i :: 0 <= i < |restores| ==> attempts[i] == AttemptOf(restores[i])
  {
    seq(|restores|, i requires 0 <= i < |restores| => AttemptOf(restores[i]))
  }

  /** The result by its fields: the packet's identity, its owner, the entries of each list, what is unfinished. */
  predicate TellsItsPacket(result: MigrationResult, r: Restore) {
    && result.identity.migrationId == r.m.migrationId && result.identity.stateDigest == r.m.stateDigest
    && result.taskOwner == r.sandbox && result.unfinished == r.handoff.unfinished
    && result.indexCount == |r.m.index| && result.worktreeCount == |r.m.worktree|
    && result.untrackedCount == |r.m.untracked|
  }

  /** The workspace by its paths: the packet's commit and branch, and at every entry's path its own bytes. */
  ghost predicate HoldsItsPacket(s: W.Snapshot, r: Restore) {
    && s.commit == r.m.commit && s.branch == r.m.branch
    && (forall e :: e in r.m.index ==> IsChangeOf(e, W.At(W.Blobs(s.rows), e.path), r.m, r.payload))
    && (forall e :: e in r.m.worktree ==> IsChangeOf(e, W.At(s.files, e.path), r.m, r.payload))
    && (forall e :: e in r.m.untracked ==> IsChangeOf(e, W.At(s.files, e.path), r.m, r.payload))
  }

  ghost predicate IsPublished(d: Disk, r: Restore) {
    && d.result.Whole? && TellsItsPacket(d.result.value, r) && d.handoff == Whole(r.handoff)
    && d.workspace.Some? && HoldsItsPacket(d.workspace.value, r)
  }

  lemma VerifiedAt(entries: seq<Entry>, restored: seq<W.Entry>, m: Metadata, payload: Bytes, tree: W.Tree)
    requires RestoresRole(entries, restored, m, payload)
    requires forall e :: e in restored ==> W.At(tree, e.path) == e.change
    ensures forall e :: e in entries ==> IsChangeOf(e, W.At(tree, e.path), m, payload)
  {
    forall e | e in entries ensures IsChangeOf(e, W.At(tree, e.path), m, payload) {
      var i :| 0 <= i < |entries| && entries[i] == e;
      assert restored[i] in restored;
    }
  }

  lemma PublishedTells(d: Disk, r: Restore, h: Hashes)
    requires Accepted(r, h) && PublishedBy(d, AttemptOf(r).migration)
    ensures IsPublished(d, r)
  {
    var s, p := d.workspace.value, Captured(r.m, r.payload);
    CapturedIsThePacket(r.m, r.payload, h);
    VerifiedAt(r.m.index, p.indexEntries, r.m, r.payload, W.Blobs(s.rows));
    VerifiedAt(r.m.worktree, p.worktree, r.m, r.payload, s.files);
    VerifiedAt(r.m.untracked, p.untracked, r.m, r.payload, s.files);
  }

  /**
   In every run of attempts with any accepted packets, stopped or torn anywhere, a complete result is that
   of one of them, field by field, beside its handoff and a workspace that holds its bytes.
   */
  lemma EveryResultTellsItsPacket(d: Disk, restores: seq<Restore>, h: Hashes)
    requires !d.result.Whole? && forall r :: r in restores ==> Accepted(r, h)
    ensures var after := PerformAll(d, AttemptsOf(restores));
      after.result.Whole? ==> exists r :: r in restores && IsPublished(after, r)
  {
    var attempts := AttemptsOf(restores);
    var after := PerformAll(d, attempts);
    EveryResultIsHandedOff(d, attempts);
    if after.result.Whole? {
      var i :| 0 <= i < |attempts| && PublishedBy(after, attempts[i].migration);
      assert restores[i] in restores;
      PublishedTells(after, restores[i], h);
    }
  }
}
