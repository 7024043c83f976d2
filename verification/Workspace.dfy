/**
 Layered reconstruction and verification of a guest checkout (tools/incus_sandbox/migration.py):
 HEAD, the index over it, the worktree over that, and untracked files beside it. Paths are flat.
 */
module Workspace {
  import opened Values
  import opened Wrappers

  type Path = string

  datatype Mode = Regular | Executable | Link
  datatype Blob = Blob(mode: Mode, content: Bytes)
  type Tree = map<Path, Blob>

  /** One captured change: a new blob, or a deletion. */
  datatype Entry = Entry(path: Path, change: Option<Blob>)

  /** The restorable part of a validated packet. */
  datatype Packet = Packet(commit: string, branch: Option<string>,
                           indexEntries: seq<Entry>, worktree: seq<Entry>, untracked: seq<Entry>)

  datatype IndexRow = IndexRow(blob: Blob, assumeUnchanged: bool, skipWorktree: bool)

  /** What Git and the filesystem report about one checkout. */
  datatype Snapshot = Snapshot(commit: string, branch: Option<string>, head: Tree,
                               rows: map<Path, IndexRow>, files: Tree, ignored: set<Path>)

  function At<V>(m: map<Path, V>, p: Path): Option<V> {
    if p in m then Some(m[p]) else None
  }

  function Blobs(rows: map<Path, IndexRow>): Tree {
    map p | p in rows :: rows[p].blob
  }

  function Paths(entries: seq<Entry>): set<Path> {
    set e | e in entries :: e.path
  }

  ghost predicate DistinctPaths(entries: seq<Entry>) {
    forall i, j {:trigger entries[i], entries[j]} :: 0 <= i < j < |entries| ==> entries[i].path != entries[j].path
  }

  /** What packet validation guarantees of the three entry lists. */
  ghost predicate WellFormed(p: Packet) {
    && DistinctPaths(p.indexEntries) && DistinctPaths(p.worktree) && DistinctPaths(p.untracked)
    && forall e :: e in p.untracked ==> e.change.Some?
  }

  // ---- what Git reports ------------------------------------------------------

  /** The tag column of `ls-files -v`: 'S' when skipped, 'H' otherwise, lower case when assumed unchanged. */
  function Tag(row: IndexRow): char {
    if row.skipWorktree then (if row.assumeUnchanged then 's' else 'S')
    else if row.assumeUnchanged then 'h' else 'H'
  }

  predicate RejectedTag(tag: char) {
    tag == 'S' || 'a' <= tag <= 'z'
  }

  /** Either flag hides the path's worktree changes from the diff. */
  predicate Hidden(row: IndexRow) {
    row.assumeUnchanged || row.skipWorktree
  }

  function CachedDiff(s: Snapshot): set<Path> {
    set p | p in s.head.Keys + s.rows.Keys && At(s.head, p) != At(Blobs(s.rows), p)
  }

  function WorktreeDiff(s: Snapshot): set<Path> {
    set p | p in s.rows && !Hidden(s.rows[p]) && At(s.files, p) != Some(s.rows[p].blob)
  }

  function UntrackedPaths(s: Snapshot): set<Path> {
    set p | p in s.files && p !in s.rows && p !in s.ignored
  }

  // ---- verification -----------------------------------------------------------

  predicate IdentityVerified(p: Packet, s: Snapshot) {
    && s.commit == p.commit && s.branch == p.branch
    && (forall q :: q in s.rows ==> !RejectedTag(Tag(s.rows[q])))
    && CachedDiff(s) == Paths(p.indexEntries)
    && WorktreeDiff(s) == Paths(p.worktree)
    && UntrackedPaths(s) == Paths(p.untracked)
  }

  predicate ContentsVerified(p: Packet, s: Snapshot) {
    && (forall e :: e in p.indexEntries ==> At(Blobs(s.rows), e.path) == e.change)
    && (forall e :: e in p.worktree ==> At(s.files, e.path) == e.change)
    && (forall e :: e in p.untracked ==> At(s.files, e.path) == e.change)
  }

  predicate Verified(p: Packet, s: Snapshot) {
    IdentityVerified(p, s) && ContentsVerified(p, s)
  }

  // ---- layers ------------------------------------------------------------------

  function Changes(entries: seq<Entry>): map<Path, Option<Blob>> {
    if entries == [] then map[]
    else
      var last := |entries| - 1;
      Changes(entries[..last])[entries[last].path := entries[last].change]
  }

  function Overlay(base: Tree, changes: map<Path, Option<Blob>>): Tree {
    map p | p in base.Keys + changes.Keys && (p in changes ==> changes[p].Some?)
      :: if p in changes then changes[p].value else base[p]
  }

  /** Every declared entry differs from the layer below it. */
  ghost predicate RealChanges(base: Tree, entries: seq<Entry>) {
    forall e :: e in entries ==> At(base, e.path) != e.change
  }

  lemma {:induction false} ChangesAt(entries: seq<Entry>)
    requires DistinctPaths(entries)
    ensures Changes(entries).Keys == Paths(entries)
    ensures forall e :: e in entries ==> Changes(entries)[e.path] == e.change
  {
    if entries != [] {
      var last := |entries| - 1;
      ChangesAt(entries[..last]);
      assert entries == entries[..last] + [entries[last]];
      forall e | e in entries ensures e.path in Changes(entries) && Changes(entries)[e.path] == e.change {
        var i :| 0 <= i < |entries| && entries[i] == e;
        if i < last {
          assert e in entries[..last];
        }
      }
    }
  }

  // Each layer twice: as verification checks it, and as the state it pins.

  ghost predicate IndexChecked(p: Packet, s: Snapshot) {
    && CachedDiff(s) == Paths(p.indexEntries)
    && forall e :: e in p.indexEntries ==> At(Blobs(s.rows), e.path) == e.change
  }

  ghost predicate IndexLayered(p: Packet, s: Snapshot) {
    && Blobs(s.rows) == Overlay(s.head, Changes(p.indexEntries))
    && RealChanges(s.head, p.indexEntries)
  }

  ghost predicate WorktreeChecked(p: Packet, s: Snapshot) {
    && WorktreeDiff(s) == Paths(p.worktree)
    && forall e :: e in p.worktree ==> At(s.files, e.path) == e.change
  }

  ghost predicate WorktreeLayered(p: Packet, s: Snapshot) {
    && (forall q :: q in s.rows ==> At(s.files, q) == At(Overlay(Blobs(s.rows), Changes(p.worktree)), q))
    && Paths(p.worktree) <= s.rows.Keys && RealChanges(Blobs(s.rows), p.worktree)
  }

  ghost predicate UntrackedChecked(p: Packet, s: Snapshot) {
    && UntrackedPaths(s) == Paths(p.untracked)
    && forall e :: e in p.untracked ==> At(s.files, e.path) == e.change
  }

  function UntrackedFiles(s: Snapshot): Tree {
    map q | q in UntrackedPaths(s) :: s.files[q]
  }

  ghost predicate UntrackedLayered(p: Packet, s: Snapshot) {
    UntrackedFiles(s) == Overlay(map[], Changes(p.untracked))
  }

  ghost predicate NothingHidden(s: Snapshot) {
    forall q :: q in s.rows ==> !Hidden(s.rows[q])
  }

  /**
   Verification accepts exactly the checkouts at the packet's commit and branch, without hiding
   index flags, whose layers are the packet's, when every declared entry is a real change.
   */
  lemma VerifiedMeansLayers(p: Packet, s: Snapshot)
    requires WellFormed(p)
    ensures Verified(p, s) <==>
      && s.commit == p.commit && s.branch == p.branch && NothingHidden(s)
      && IndexLayered(p, s) && WorktreeLayered(p, s) && UntrackedLayered(p, s)
  {
    VerifiedByLayer(p, s);
    if NothingHidden(s) {
      IndexLayer(p, s);
      WorktreeLayer(p, s);
      UntrackedLayer(p, s);
    }
  }

  lemma VerifiedByLayer(p: Packet, s: Snapshot)
    ensures Verified(p, s) <==>
      && s.commit == p.commit && s.branch == p.branch && NothingHidden(s)
      && IndexChecked(p, s) && WorktreeChecked(p, s) && UntrackedChecked(p, s)
  {
    assert forall q :: q in s.rows ==> (RejectedTag(Tag(s.rows[q])) <==> Hidden(s.rows[q]));
  }

  lemma IndexLayer(p: Packet, s: Snapshot)
    requires WellFormed(p)
    ensures IndexChecked(p, s) <==> IndexLayered(p, s)
  {
    ChangesAt(p.indexEntries);
    var rows, layer := Blobs(s.rows), Overlay(s.head, Changes(p.indexEntries));
    if IndexChecked(p, s) {
      forall q ensures At(rows, q) == At(layer, q) {
        if q in Paths(p.indexEntries) {
          var e :| e in p.indexEntries && e.path == q;
        } else {
          assert q !in CachedDiff(s);
        }
      }
      SameTree(rows, layer);
      forall e | e in p.indexEntries ensures At(s.head, e.path) != e.change {
        assert e.path in CachedDiff(s);
      }
    }
    if IndexLayered(p, s) {
      forall e | e in p.indexEntries ensures At(rows, e.path) == e.change && e.path in CachedDiff(s) {
        assert At(layer, e.path) == e.change;
      }
      forall q | q in CachedDiff(s) ensures q in Paths(p.indexEntries) {
        assert At(rows, q) == At(layer, q);
      }
    }
  }

  lemma SameTree(a: Tree, b: Tree)
    requires forall q :: At(a, q) == At(b, q)
    ensures a == b
  {
    forall q ensures q in a <==> q in b {
      assert At(a, q) == At(b, q);
    }
    forall q | q in a ensures a[q] == b[q] {
      assert At(a, q) == At(b, q);
    }
  }

  lemma WorktreeLayer(p: Packet, s: Snapshot)
    requires WellFormed(p) && NothingHidden(s)
    ensures WorktreeChecked(p, s) <==> WorktreeLayered(p, s)
  {
    ChangesAt(p.worktree);
    var rows, layer := Blobs(s.rows), Overlay(Blobs(s.rows), Changes(p.worktree));
    if WorktreeChecked(p, s) {
      forall q | q in s.rows ensures At(s.files, q) == At(layer, q) {
        if q in Paths(p.worktree) {
          var e :| e in p.worktree && e.path == q;
        } else {
          assert q !in WorktreeDiff(s);
        }
      }
      forall e | e in p.worktree ensures At(rows, e.path) != e.change {
        assert e.path in WorktreeDiff(s);
      }
    }
    if WorktreeLayered(p, s) {
      forall e | e in p.worktree ensures At(s.files, e.path) == e.change && e.path in WorktreeDiff(s) {
        assert e.path in Paths(p.worktree);
        assert At(layer, e.path) == e.change;
      }
      forall q | q in WorktreeDiff(s) ensures q in Paths(p.worktree) {
        assert At(s.files, q) == At(layer, q);
      }
    }
  }

  lemma UntrackedLayer(p: Packet, s: Snapshot)
    requires WellFormed(p)
    ensures UntrackedChecked(p, s) <==> UntrackedLayered(p, s)
  {
    ChangesAt(p.untracked);
    var seen, layer := UntrackedFiles(s), Overlay(map[], Changes(p.untracked));
    assert layer.Keys == Paths(p.untracked);
    assert seen.Keys == UntrackedPaths(s);
    if UntrackedLayered(p, s) {
      forall e | e in p.untracked ensures At(s.files, e.path) == e.change {
        assert e.path in seen;
      }
    }
    if UntrackedChecked(p, s) {
      forall q | q in seen ensures seen[q] == layer[q] {
        var e :| e in p.untracked && e.path == q;
      }
    }
  }

  /**
   Verification pins the checkout: two accepted by the same packet agree on every index row, every
   tracked file and every visible untracked file. A commit determines its tree.
   */
  lemma VerificationPinsTheCheckout(p: Packet, a: Snapshot, b: Snapshot)
    requires WellFormed(p) && Verified(p, a) && Verified(p, b)
    requires a.commit == b.commit ==> a.head == b.head
    ensures a.rows == b.rows
    ensures forall q :: q in a.rows ==> At(a.files, q) == At(b.files, q)
    ensures UntrackedPaths(a) == UntrackedPaths(b)
    ensures forall q :: q in UntrackedPaths(a) ==> a.files[q] == b.files[q]
  {
    VerifiedMeansLayers(p, a);
    VerifiedMeansLayers(p, b);
    assert Blobs(a.rows) == Blobs(b.rows);
    assert a.rows.Keys == Blobs(a.rows).Keys && b.rows.Keys == Blobs(b.rows).Keys;
    forall q | q in a.rows ensures a.rows[q] == b.rows[q] {
      assert Blobs(a.rows)[q] == Blobs(b.rows)[q];
    }
    assert UntrackedFiles(a).Keys == UntrackedPaths(a) && UntrackedFiles(b).Keys == UntrackedPaths(b);
    forall q | q in UntrackedPaths(a) ensures a.files[q] == b.files[q] {
      assert UntrackedFiles(a)[q] == UntrackedFiles(b)[q];
    }
  }

  /** Without the flag check the rest of verification would accept a checkout with other contents. */
  lemma FlagsWouldHideChanges(path: Path, kept: Blob, edited: Blob)
    requires kept != edited
    ensures var p := Packet("c", None, [], [], []);
      var clean := Snapshot("c", None, map[path := kept],
                            map[path := IndexRow(kept, false, false)], map[path := kept], {});
      var hiding := clean.(rows := map[path := IndexRow(kept, true, false)], files := map[path := edited]);
      && Verified(p, clean)
      && !Verified(p, hiding)
      && CachedDiff(hiding) == {} && WorktreeDiff(hiding) == {} && UntrackedPaths(hiding) == {}
      && ContentsVerified(p, hiding)
  {
    var hiding := Snapshot("c", None, map[path := kept],
                           map[path := IndexRow(kept, true, false)], map[path := edited], {});
    assert path in hiding.rows && RejectedTag(Tag(hiding.rows[path]));
    var clean := Snapshot("c", None, map[path := kept],
                          map[path := IndexRow(kept, false, false)], map[path := kept], {});
    assert CachedDiff(clean) == {} && WorktreeDiff(clean) == {} && UntrackedPaths(clean) == {};
  }

  // ---- reconstruction -------------------------------------------------------------

  function CleanRows(head: Tree): map<Path, IndexRow> {
    map p | p in head :: IndexRow(head[p], false, false)
  }

  /** The files after the worktree and untracked layers. */
  function ReconstructedFiles(p: Packet, head: Tree): Tree {
    Overlay(Overlay(Overlay(head, Changes(p.indexEntries)), Changes(p.worktree)), Changes(p.untracked))
  }

  function Reconstructed(p: Packet, head: Tree, ignores: Tree -> set<Path>): Snapshot {
    var files := ReconstructedFiles(p, head);
    Snapshot(p.commit, p.branch, head, CleanRows(Overlay(head, Changes(p.indexEntries))), files, ignores(files))
  }

  /** The packet describes real changes, and its untracked files are untracked and visible. */
  ghost predicate Realizable(p: Packet, head: Tree, ignores: Tree -> set<Path>) {
    var rows := Overlay(head, Changes(p.indexEntries));
    && RealChanges(head, p.indexEntries)
    && RealChanges(rows, p.worktree) && Paths(p.worktree) <= rows.Keys
    && Paths(p.untracked) !! rows.Keys
    && Paths(p.untracked) !! ignores(ReconstructedFiles(p, head))
  }

  lemma RealizableVerifies(p: Packet, head: Tree, ignores: Tree -> set<Path>)
    requires WellFormed(p) && Realizable(p, head, ignores)
    ensures Verified(p, Reconstructed(p, head, ignores))
  {
    var s := Reconstructed(p, head, ignores);
    VerifiedMeansLayers(p, s);
    assert Blobs(s.rows) == Overlay(head, Changes(p.indexEntries));
    ReconstructedUntracked(p, head, ignores);
    UntrackedLayer(p, s);
    ReconstructedTracked(p, head, ignores);
  }

  lemma VerifiedIsRealizable(p: Packet, head: Tree, ignores: Tree -> set<Path>)
    requires WellFormed(p) && Verified(p, Reconstructed(p, head, ignores))
    ensures Realizable(p, head, ignores)
  {
    var s := Reconstructed(p, head, ignores);
    VerifiedMeansLayers(p, s);
    assert Blobs(s.rows) == Overlay(head, Changes(p.indexEntries));
    UntrackedLayer(p, s);
    assert UntrackedPaths(s) == Paths(p.untracked);
  }

  /** A reconstruction verifies exactly when the packet is realizable over its HEAD. */
  lemma ReconstructionVerifiesIffRealizable(p: Packet, head: Tree, ignores: Tree -> set<Path>)
    requires WellFormed(p)
    ensures Verified(p, Reconstructed(p, head, ignores)) <==> Realizable(p, head, ignores)
  {
    if Realizable(p, head, ignores) {
      RealizableVerifies(p, head, ignores);
    }
    if Verified(p, Reconstructed(p, head, ignores)) {
      VerifiedIsRealizable(p, head, ignores);
    }
  }

  lemma ReconstructedTracked(p: Packet, head: Tree, ignores: Tree -> set<Path>)
    requires WellFormed(p) && Paths(p.untracked) !! Overlay(head, Changes(p.indexEntries)).Keys
    ensures var s := Reconstructed(p, head, ignores);
      forall q :: q in s.rows ==> At(s.files, q) == At(Overlay(Blobs(s.rows), Changes(p.worktree)), q)
  {
    ChangesAt(p.untracked);
    var s := Reconstructed(p, head, ignores);
    var rows := Overlay(head, Changes(p.indexEntries));
    assert Blobs(s.rows) == rows;
    forall q | q in s.rows ensures At(s.files, q) == At(Overlay(rows, Changes(p.worktree)), q) {
      assert q !in Paths(p.untracked);
    }
  }

  lemma ReconstructedUntracked(p: Packet, head: Tree, ignores: Tree -> set<Path>)
    requires WellFormed(p) && Realizable(p, head, ignores)
    ensures UntrackedChecked(p, Reconstructed(p, head, ignores))
  {
    ChangesAt(p.worktree);
    ChangesAt(p.untracked);
    var s := Reconstructed(p, head, ignores);
    forall e | e in p.untracked ensures At(s.files, e.path) == e.change && e.path in UntrackedPaths(s) {
      assert e.path in Paths(p.untracked);
    }
    forall q | q in UntrackedPaths(s) ensures q in Paths(p.untracked) {
      assert q !in Overlay(head, Changes(p.indexEntries));
    }
  }

  // ---- the guest checkout -----------------------------------------------------------

  /** The entries of one pass: the deletions, or the writes. */
  function Pass(entries: seq<Entry>, live: bool): seq<Entry> {
    if entries == [] then []
    else (if entries[0].change.Some? == live then [entries[0]] else []) + Pass(entries[1..], live)
  }

  lemma {:induction false} PassContents(entries: seq<Entry>, live: bool)
    requires DistinctPaths(entries)
    ensures DistinctPaths(Pass(entries, live))
    ensures forall e :: e in Pass(entries, live) <==> e in entries && e.change.Some? == live
  {
    if entries != [] {
      PassContents(entries[1..], live);
      var rest := Pass(entries[1..], live);
      assert entries == [entries[0]] + entries[1..];
      forall i | 0 <= i < |rest| ensures rest[i].path != entries[0].path {
        assert rest[i] in entries[1..];
      }
    }
  }

  /** Deletions first and writes second leave what one pass over all entries describes. */
  lemma PassesCompose(base: Tree, entries: seq<Entry>)
    requires DistinctPaths(entries)
    ensures Overlay(Overlay(base, Changes(Pass(entries, false))), Changes(Pass(entries, true)))
         == Overlay(base, Changes(entries))
  {
    PassContents(entries, false);
    PassContents(entries, true);
    ChangesAt(entries);
    ChangesAt(Pass(entries, false));
    ChangesAt(Pass(entries, true));
    var twice := Overlay(Overlay(base, Changes(Pass(entries, false))), Changes(Pass(entries, true)));
    forall q ensures At(twice, q) == At(Overlay(base, Changes(entries)), q) {
      if q in Paths(entries) {
        var e :| e in entries && e.path == q;
        assert e in Pass(entries, e.change.Some?);
        if q in Paths(Pass(entries, true)) {
          var other :| other in Pass(entries, true) && other.path == q;
          assert Changes(entries)[q] == other.change;
        }
      }
    }
    SameTree(twice, Overlay(base, Changes(entries)));
  }

  lemma ChangesNext(entries: seq<Entry>, i: nat)
    requires i < |entries|
    ensures Changes(entries[..i + 1]) == Changes(entries[..i])[entries[i].path := entries[i].change]
  {
    assert entries[..i + 1][..i] == entries[..i];
  }

  lemma DeleteNext(base: Tree, entries: seq<Entry>, i: nat)
    requires i < |entries| && entries[i].change.None?
    ensures Overlay(base, Changes(entries[..i + 1])) == Overlay(base, Changes(entries[..i])) - {entries[i].path}
  {
    ChangesNext(entries, i);
  }

  lemma WriteNext(base: Tree, entries: seq<Entry>, i: nat)
    requires i < |entries| && entries[i].change.Some?
    ensures Overlay(base, Changes(entries[..i + 1]))
         == Overlay(base, Changes(entries[..i]))[entries[i].path := entries[i].change.value]
  {
    ChangesNext(entries, i);
  }

  lemma CleanBecauseUnhidden(rows: map<Path, IndexRow>)
    requires forall q :: q in rows ==> !Hidden(rows[q])
    ensures rows == CleanRows(Blobs(rows))
  {
  }

  lemma BlobsOfUpdates(rows: map<Path, IndexRow>, path: Path, row: IndexRow)
    ensures Blobs(rows[path := row]) == Blobs(rows)[path := row.blob]
    ensures Blobs(rows - {path}) == Blobs(rows) - {path}
  {
  }

  class Checkout {
    const commit: string
    const branch: Option<string>
    const head: Tree
    const ignores: Tree -> set<Path>
    var rows: map<Path, IndexRow>
    var files: Tree

    /** A fresh checkout: the index and the files are HEAD's. */
    constructor (commit: string, branch: Option<string>, head: Tree, ignores: Tree -> set<Path>)
      ensures this.commit == commit && this.branch == branch && this.head == head && this.ignores == ignores
      ensures rows == CleanRows(head) && files == head
    {
      this.commit, this.branch, this.head, this.ignores := commit, branch, head, ignores;
      rows, files := CleanRows(head), head;
    }

    function View(): Snapshot
      reads this
    {
      Snapshot(commit, branch, head, rows, files, ignores(files))
    }

    method DeleteFromIndex(entries: seq<Entry>)
      requires DistinctPaths(entries) && forall e :: e in entries ==> e.change.None?
      modifies this`rows, this`files
      ensures Blobs(rows) == Overlay(Blobs(old(rows)), Changes(entries))
      ensures files == Overlay(old(files), Changes(entries))
      ensures forall q :: q in rows ==> q in old(rows) && rows[q] == old(rows)[q]
    {
      for i := 0 to |entries|
        invariant Blobs(rows) == Overlay(Blobs(old(rows)), Changes(entries[..i]))
        invariant files == Overlay(old(files), Changes(entries[..i]))
        invariant forall q :: q in rows ==> q in old(rows) && rows[q] == old(rows)[q]
      {
        assert entries[i] in entries;
        var path := entries[i].path;
        DeleteNext(Blobs(old(rows)), entries, i);
        DeleteNext(old(files), entries, i);
        BlobsOfUpdates(rows, path, IndexRow(Blob(Regular, []), false, false));
        files := files - {path};
        rows := rows - {path};
      }
      assert entries[..|entries|] == entries;
    }

    method AddToIndex(entries: seq<Entry>)
      requires DistinctPaths(entries) && forall e :: e in entries ==> e.change.Some?
      modifies this`rows, this`files
      ensures Blobs(rows) == Overlay(Blobs(old(rows)), Changes(entries))
      ensures files == Overlay(old(files), Changes(entries))
      ensures forall q :: q in rows ==> !Hidden(rows[q]) || (q in old(rows) && rows[q] == old(rows)[q])
    {
      for i := 0 to |entries|
        invariant Blobs(rows) == Overlay(Blobs(old(rows)), Changes(entries[..i]))
        invariant files == Overlay(old(files), Changes(entries[..i]))
        invariant forall q :: q in rows ==> !Hidden(rows[q]) || (q in old(rows) && rows[q] == old(rows)[q])
      {
        assert entries[i] in entries;
        var path, blob := entries[i].path, entries[i].change.value;
        WriteNext(Blobs(old(rows)), entries, i);
        WriteNext(old(files), entries, i);
        BlobsOfUpdates(rows, path, IndexRow(blob, false, false));
        files := files[path := blob];
        rows := rows[path := IndexRow(blob, false, false)];
      }
      assert entries[..|entries|] == entries;
    }

    method WriteFiles(entries: seq<Entry>)
      modifies this`files
      ensures files == Overlay(old(files), Changes(entries))
    {
      for i := 0 to |entries|
        invariant files == Overlay(old(files), Changes(entries[..i]))
      {
        match entries[i].change
        case None =>
          DeleteNext(old(files), entries, i);
          files := files - {entries[i].path};
        case Some(blob) =>
          WriteNext(old(files), entries, i);
          files := files[entries[i].path := blob];
      }
      assert entries[..|entries|] == entries;
    }

    /** Rebuild the captured state over a fresh checkout. */
    method ApplyEntries(p: Packet)
      requires WellFormed(p) && p.commit == commit && p.branch == branch
      requires rows == CleanRows(head) && files == head
      modifies this`rows, this`files
      ensures View() == Reconstructed(p, head, ignores)
    {
      ApplyIndex(p.indexEntries);
      WriteFiles(p.worktree);
      WriteFiles(p.untracked);
    }

    /** Deletions first, then the staged blobs: together they overlay HEAD. */
    method ApplyIndex(entries: seq<Entry>)
      requires DistinctPaths(entries) && rows == CleanRows(head) && files == head
      modifies this`rows, this`files
      ensures rows == CleanRows(Overlay(head, Changes(entries))) && files == Overlay(head, Changes(entries))
    {
      PassContents(entries, false);
      PassContents(entries, true);
      PassesCompose(head, entries);
      assert Blobs(rows) == head;
      DeleteFromIndex(Pass(entries, false));
      AddToIndex(Pass(entries, true));
      CleanBecauseUnhidden(rows);
    }

    method VerifyEntries(p: Packet) returns (accepted: bool)
      ensures accepted <==> Verified(p, View())
    {
      if commit != p.commit || branch != p.branch {
        return false;
      }
      if exists q :: q in rows && RejectedTag(Tag(rows[q])) {
        return false;
      }
      var s := View();
      if CachedDiff(s) != Paths(p.indexEntries) || WorktreeDiff(s) != Paths(p.worktree)
        || UntrackedPaths(s) != Paths(p.untracked) {
        return false;
      }
      var index := EachMatches(p.indexEntries, Blobs(rows));
      if !index {
        return false;
      }
      var worktree := EachMatches(p.worktree, files);
      if !worktree {
        return false;
      }
      accepted := EachMatches(p.untracked, files);
    }
  }

  method EachMatches(entries: seq<Entry>, tree: Tree) returns (ok: bool)
    ensures ok <==> forall e :: e in entries ==> At(tree, e.path) == e.change
  {
    for i := 0 to |entries|
      invariant forall j :: 0 <= j < i ==> At(tree, entries[j].path) == entries[j].change
    {
      if At(tree, entries[i].path) != entries[i].change {
        return false;
      }
    }
    ok := true;
  }
}
