/**
 What an accepted packet restores (tools/incus_sandbox/migration_packet.py, migration.py): from the fields
 of its document, item by item and role by role, to the index rows and files of the rebuilt checkout.
 */
module PacketRestore {
  import opened Wrappers
  import opened TextOrder
  import opened Values
  import opened MigrationPacket
  import W = Workspace

  // ---- the document, read by its field names -----------------------------------------------

  /** A section row: its range, its digest, and the file it is the content of. */
  ghost predicate DeclaresSection(raw: Json, s: Section) {
    && raw.Obj? && Field(raw.fields, "role") == Str(s.role) && Field(raw.fields, "sha256") == Str(s.digest)
    && AsInt(Field(raw.fields, "offset")) == Some(s.offset) && AsInt(Field(raw.fields, "length")) == Some(s.length)
    && (s.role in {"index", "worktree", "untracked"} ==>
          Field(raw.fields, "path") == Str(s.path) && Field(raw.fields, "mode") == Str(s.mode))
  }

  /** An entry: its path, and either a deletion or a mode and a section. */
  ghost predicate DeclaresEntry(item: Json, e: Entry) {
    && item.Obj? && Field(item.fields, "path") == Str(e.path)
    && (e.deleted <==> Field(item.fields, "deleted") == Bool(true))
    && (!e.deleted ==>
          Field(item.fields, "mode") == Str(e.mode) && AsInt(Field(item.fields, "section")) == Some(e.section))
  }

  ghost predicate DeclaresEntries(list: Json, entries: seq<Entry>) {
    && list.Arr? && |list.items| == |entries|
    && forall i :: 0 <= i < |entries| ==> DeclaresEntry(list.items[i], entries[i])
  }

  ghost predicate DeclaresBranch(value: Json, branch: Option<string>) {
    match branch
    case None => value == Null
    case Some(name) => value == Str(name)
  }

  ghost predicate DeclaresNames(fields: map<string, Json>, m: Metadata) {
    && Field(fields, "schema") == Str("gc.incus-sandbox.migration/v1")
    && Field(fields, "migration_id") == Str(m.migrationId) && Field(fields, "commit") == Str(m.commit)
    && Field(fields, "state_digest") == Str(m.stateDigest) && DeclaresBranch(Field(fields, "branch"), m.branch)
    && AsInt(Field(fields, "bundle_section")) == Some(m.bundleSection)
    && AsInt(Field(fields, "handoff_section")) == Some(m.handoffSection)
  }

  ghost predicate DeclaresTable(table: Json, sections: seq<Section>) {
    && table.Arr? && |table.items| == |sections|
    && forall i :: 0 <= i < |sections| ==> DeclaresSection(table.items[i], sections[i])
  }

  ghost predicate Declares(document: Json, m: Metadata) {
    && document.Obj? && DeclaresNames(document.fields, m)
    && DeclaresTable(Field(document.fields, "sections"), m.sections)
    && Field(document.fields, "entries").Obj?
    && var lists := Field(document.fields, "entries").fields;
      && DeclaresEntries(Field(lists, "index"), m.index)
      && DeclaresEntries(Field(lists, "worktree"), m.worktree)
      && DeclaresEntries(Field(lists, "untracked"), m.untracked)
  }

  lemma SectionIsDeclared(raw: Json)
    ensures SectionOf(raw).Some? ==> DeclaresSection(raw, SectionOf(raw).value)
  {
  }

  lemma EntryIsDeclared(item: Json, role: string, sections: seq<Section>)
    ensures EntryOf(item, role, sections).Some? ==> DeclaresEntry(item, EntryOf(item, role, sections).value)
  {
  }

  lemma RoleIsDeclared(fields: map<string, Json>, role: string, sections: seq<Section>)
    requires RoleEntries(fields, role, sections).Some?
    ensures DeclaresEntries(Field(fields, role), RoleEntries(fields, role, sections).value)
  {
    var items, entries := Field(fields, role).items, RoleEntries(fields, role, sections).value;
    EntriesMeaning(items, role, "", sections, entries);
    forall i | 0 <= i < |entries| ensures DeclaresEntry(items[i], entries[i]) {
      EntryIsDeclared(items[i], role, sections);
    }
  }

  lemma TableIsDeclared(table: Json, payload: Bytes, h: Hashes)
    requires SectionsOf(table, payload, h).Some?
    ensures DeclaresTable(table, SectionsOf(table, payload, h).value)
  {
    var sections := SectionsOf(table, payload, h).value;
    SectionsMeaning(table.items, payload, 0, h, sections);
    forall i | 0 <= i < |sections| ensures DeclaresSection(table.items[i], sections[i]) {
      SectionIsDeclared(table.items[i]);
    }
  }

  lemma NamesAreDeclared(fields: map<string, Json>, sections: seq<Section>, h: Hashes)
    requires MetadataOf(fields, sections).Some? && ValidMetadata(fields, MetadataOf(fields, sections).value, h)
    ensures DeclaresNames(fields, MetadataOf(fields, sections).value)
  {
  }

  lemma DocumentIsDeclared(fields: map<string, Json>, payload: Bytes, sections: seq<Section>, h: Hashes)
    requires SectionsOf(Field(fields, "sections"), payload, h) == Some(sections)
    requires MetadataOf(fields, sections).Some? && ValidMetadata(fields, MetadataOf(fields, sections).value, h)
    ensures Declares(Obj(fields), MetadataOf(fields, sections).value)
  {
    TableIsDeclared(Field(fields, "sections"), payload, h);
    MetadataParts(fields, sections);
    NamesAreDeclared(fields, sections, h);
    var lists := Field(fields, "entries").fields;
    RoleIsDeclared(lists, "index", sections);
    RoleIsDeclared(lists, "worktree", sections);
    RoleIsDeclared(lists, "untracked", sections);
  }

  /** An accepted packet says of every field of its document what the document says. */
  lemma AcceptedPacketIsItsDocument(packet: Bytes, decode: Bytes -> Option<Json>, h: Hashes)
    requires ParsePacket(packet, decode, h).Some?
    ensures var (m, payload) := ParsePacket(packet, decode, h).value;
      exists metadata :: 2 <= |metadata| <= MAX_METADATA_BYTES && packet == Envelope(metadata, payload)
        && decode(metadata).Some? && Declares(decode(metadata).value, m)
  {
    var (m, payload) := ParsePacket(packet, decode, h).value;
    var parts := Parts(packet).value;
    var fields := decode(parts.0).value.fields;
    EnvelopeRoundTrip(packet, parts.0, payload);
    DocumentIsDeclared(fields, payload, SectionsOf(Field(fields, "sections"), payload, h).value, h);
  }

  // ---- the captured state, role by role -------------------------------------------------------

  predicate ModeNames(mode: string, kind: W.Mode) {
    match kind
    case Regular => mode == "100644"
    case Executable => mode == "100755"
    case Link => mode == "120000"
  }

  /** A deletion leaves nothing at the path; another entry leaves the bytes of its own section. */
  ghost predicate IsChangeOf(e: Entry, change: Option<W.Blob>, m: Metadata, payload: Bytes) {
    && (change.None? <==> e.deleted)
    && (!e.deleted ==>
          && 0 <= e.section < |m.sections|
          && var s := m.sections[e.section];
            && 0 <= s.offset && s.offset + s.length <= |payload|
            && change.value.content == payload[s.offset..s.offset + s.length]
            && ModeNames(e.mode, change.value.mode))
  }

  ghost predicate RestoresRole(entries: seq<Entry>, restored: seq<W.Entry>, m: Metadata, payload: Bytes) {
    && |restored| == |entries|
    && forall i :: 0 <= i < |entries| ==>
         restored[i].path == entries[i].path && IsChangeOf(entries[i], restored[i].change, m, payload)
  }

  lemma RoleIsRestored(entries: seq<Entry>, role: string, m: Metadata, payload: Bytes, h: Hashes)
    requires ClosedSections(m, payload, h) && forall e :: e in entries ==> EntryFits(e, role, m.sections)
    ensures RestoresRole(entries, ResolveAll(entries, m, payload), m, payload)
  {
    var restored := ResolveAll(entries, m, payload);
    forall i | 0 <= i < |entries|
      ensures restored[i].path == entries[i].path && IsChangeOf(entries[i], restored[i].change, m, payload)
    {
      assert EntryFits(entries[i], role, m.sections);
      if !entries[i].deleted {
        assert SliceMatches(m.sections[entries[i].section], payload, h);
      }
    }
  }

  /** The captured state of an accepted packet has exactly the entries of each of its three lists. */
  lemma CapturedIsThePacket(m: Metadata, payload: Bytes, h: Hashes)
    requires ClosedSections(m, payload, h) && ClosedEntries(m)
    ensures var p := Captured(m, payload);
      && p.commit == m.commit && p.branch == m.branch
      && RestoresRole(m.index, p.indexEntries, m, payload)
      && RestoresRole(m.worktree, p.worktree, m, payload)
      && RestoresRole(m.untracked, p.untracked, m, payload)
  {
    RoleIsRestored(m.index, "index", m, payload, h);
    RoleIsRestored(m.worktree, "worktree", m, payload, h);
    RoleIsRestored(m.untracked, "untracked", m, payload, h);
  }

  // ---- the rebuilt checkout ------------------------------------------------------------------------

  ghost predicate Names(entries: seq<Entry>, path: W.Path) {
    exists e :: e in entries && e.path == path
  }

  lemma OverlayAt(base: W.Tree, entries: seq<Entry>, restored: seq<W.Entry>, m: Metadata, payload: Bytes)
    requires W.DistinctPaths(restored) && RestoresRole(entries, restored, m, payload)
    ensures var after := W.Overlay(base, W.Changes(restored));
      && (forall e :: e in entries ==> IsChangeOf(e, W.At(after, e.path), m, payload))
      && (forall q :: !Names(entries, q) ==> W.At(after, q) == W.At(base, q))
  {
    W.ChangesAt(restored);
    var after := W.Overlay(base, W.Changes(restored));
    forall e | e in entries ensures IsChangeOf(e, W.At(after, e.path), m, payload) {
      var i :| 0 <= i < |entries| && entries[i] == e;
      assert restored[i] in restored;
      assert W.At(after, e.path) == restored[i].change;
    }
    forall q | q in W.Paths(restored) ensures Names(entries, q) {
      var r :| r in restored && r.path == q;
      var i :| 0 <= i < |restored| && restored[i] == r;
      assert entries[i] in entries;
    }
  }

  /**
   The index of the rebuilt checkout: an index entry's own mode and bytes, or nothing for a deletion;
   at every other path what HEAD has.
   */
  ghost predicate IndexIsRestored(m: Metadata, payload: Bytes, head: W.Tree, s: W.Snapshot) {
    && (forall e :: e in m.index ==> IsChangeOf(e, W.At(W.Blobs(s.rows), e.path), m, payload))
    && (forall q :: !Names(m.index, q) ==> W.At(W.Blobs(s.rows), q) == W.At(head, q))
  }

  /**
   The files: an untracked entry's bytes; where there is none, the worktree entry's; where there is
   neither, what the index has.
   */
  ghost predicate FilesAreRestored(m: Metadata, payload: Bytes, s: W.Snapshot) {
    && (forall e :: e in m.untracked ==> IsChangeOf(e, W.At(s.files, e.path), m, payload))
    && (forall e :: e in m.worktree && !Names(m.untracked, e.path) ==> IsChangeOf(e, W.At(s.files, e.path), m, payload))
    && (forall q :: !Names(m.untracked, q) && !Names(m.worktree, q) ==> W.At(s.files, q) == W.At(W.Blobs(s.rows), q))
  }

  /** Reconstruction over a checkout of the packet's commit leaves exactly what the packet describes. */
  lemma ReconstructionIsThePacket(m: Metadata, payload: Bytes, h: Hashes, head: W.Tree, ignores: W.Tree -> set<W.Path>)
    requires ClosedSections(m, payload, h) && ClosedEntries(m)
    ensures var s := W.Reconstructed(Captured(m, payload), head, ignores);
      && s.commit == m.commit && s.branch == m.branch && s.head == head
      && IndexIsRestored(m, payload, head, s) && FilesAreRestored(m, payload, s)
  {
    var p := Captured(m, payload);
    CapturedIsThePacket(m, payload, h);
    CapturedIsWellFormed(m, payload, h);
    var index := W.Overlay(head, W.Changes(p.indexEntries));
    var tracked := W.Overlay(index, W.Changes(p.worktree));
    OverlayAt(head, m.index, p.indexEntries, m, payload);
    OverlayAt(index, m.worktree, p.worktree, m, payload);
    OverlayAt(tracked, m.untracked, p.untracked, m, payload);
    assert W.Blobs(W.CleanRows(index)) == index;
  }

  /** The packet, applied to a fresh checkout of its commit. */
  method RestorePacket(m: Metadata, payload: Bytes, checkout: W.Checkout, ghost h: Hashes)
    requires ClosedSections(m, payload, h) && ClosedEntries(m)
    requires checkout.commit == m.commit && checkout.branch == m.branch
    requires checkout.rows == W.CleanRows(checkout.head) && checkout.files == checkout.head
    modifies checkout`rows, checkout`files
    ensures IndexIsRestored(m, payload, checkout.head, checkout.View())
    ensures FilesAreRestored(m, payload, checkout.View())
  {
    CapturedIsWellFormed(m, payload, h);
    ReconstructionIsThePacket(m, payload, h, checkout.head, checkout.ignores);
    checkout.ApplyEntries(Captured(m, payload));
  }

  // ---- exactly the accepted packets -----------------------------------------------------------------------

  predicate IsFileRole(role: string) {
    role == "index" || role == "worktree" || role == "untracked"
  }

  /** The limits of one section, by its role. */
  predicate ProperSection(s: Section) {
    && (IsFileRole(s.role) || s.role == "bundle" || s.role == "handoff")
    && s.length <= (if s.role == "bundle" then 1024 * 1024 * 1024
                    else if s.role == "handoff" then 64 * 1024 else 64 * 1024 * 1024)
    && IsDigest(s.digest)
    && (if IsFileRole(s.role) then SafePath(s.path) && (s.mode == "100644" || s.mode == "100755" || s.mode == "120000")
        else s.path == "" && s.mode == "")
  }

  /** A row has exactly its fields, and they are within the limits. */
  ghost predicate ClosedRow(raw: Json, s: Section) {
    && DeclaresSection(raw, s) && ProperSection(s)
    && raw.fields.Keys == {"role", "offset", "length", "sha256"} + if IsFileRole(s.role) then {"path", "mode"} else {}
  }

  lemma SectionIffClosed(raw: Json, s: Section)
    ensures SectionOf(raw) == Some(s) <==> ClosedRow(raw, s)
  {
  }

  /** An item has exactly its fields, and it fits the table. */
  ghost predicate ClosedItem(item: Json, e: Entry, role: string, sections: seq<Section>) {
    && DeclaresEntry(item, e) && EntryFits(e, role, sections)
    && item.fields.Keys == (if e.deleted then {"path", "deleted"} else {"path", "mode", "section"})
    && (e.deleted ==> e.mode == "" && e.section == -1)
  }

  lemma EntryIffClosed(item: Json, role: string, sections: seq<Section>, e: Entry)
    ensures EntryOf(item, role, sections) == Some(e) <==> ClosedItem(item, e, role, sections)
  {
  }

  ghost predicate ClosedTable(table: Json, sections: seq<Section>, payload: Bytes, h: Hashes) {
    && table.Arr? && 2 <= |table.items| <= 2048 + 2 && |table.items| == |sections|
    && (forall i :: 0 <= i < |sections| ==> ClosedRow(table.items[i], sections[i]))
    && Tiles(sections, payload, 0) && SlicesMatch(sections, payload, h)
    && CountRole(sections, "bundle") == 1 && CountRole(sections, "handoff") == 1
  }

  lemma TableIffClosed(table: Json, payload: Bytes, h: Hashes, sections: seq<Section>)
    ensures SectionsOf(table, payload, h) == Some(sections) <==> ClosedTable(table, sections, payload, h)
  {
    if table.Arr? && |table.items| == |sections| {
      SectionsMeaning(table.items, payload, 0, h, sections);
      forall i | 0 <= i < |sections|
        ensures SectionOf(table.items[i]) == Some(sections[i]) <==> ClosedRow(table.items[i], sections[i])
      {
        SectionIffClosed(table.items[i], sections[i]);
      }
    } else if table.Arr? {
      SectionsMeaning(table.items, payload, 0, h, sections);
    }
  }

  ghost predicate ClosedList(list: Json, entries: seq<Entry>, role: string, sections: seq<Section>) {
    && list.Arr? && |list.items| == |entries|
    && (forall i :: 0 <= i < |entries| ==> ClosedItem(list.items[i], entries[i], role, sections))
    && StrictlySorted(entries)
  }

  lemma FirstPathIsNotEmpty(item: Json, e: Entry, role: string, sections: seq<Section>)
    requires EntryOf(item, role, sections) == Some(e)
    ensures LexLess("", e.path)
  {
  }

  lemma ListIffClosed(fields: map<string, Json>, role: string, sections: seq<Section>, entries: seq<Entry>)
    ensures RoleEntries(fields, role, sections) == Some(entries)
      <==> ClosedList(Field(fields, role), entries, role, sections)
  {
    var list := Field(fields, role);
    if list.Arr? {
      EntriesMeaning(list.items, role, "", sections, entries);
      if |list.items| == |entries| {
        forall i | 0 <= i < |entries|
          ensures EntryOf(list.items[i], role, sections) == Some(entries[i])
            <==> ClosedItem(list.items[i], entries[i], role, sections)
        {
          EntryIffClosed(list.items[i], role, sections, entries[i]);
        }
        if entries != [] && EntryOf(list.items[0], role, sections) == Some(entries[0]) {
          FirstPathIsNotEmpty(list.items[0], entries[0], role, sections);
        }
      }
    }
  }

  ghost predicate ClosedLists(lists: Json, m: Metadata) {
    && lists.Obj? && lists.fields.Keys == {"index", "worktree", "untracked"}
    && ClosedList(Field(lists.fields, "index"), m.index, "index", m.sections)
    && ClosedList(Field(lists.fields, "worktree"), m.worktree, "worktree", m.sections)
    && ClosedList(Field(lists.fields, "untracked"), m.untracked, "untracked", m.sections)
  }

  /** The whole document: its names, its table over this payload, its lists, and the rules of its other fields. */
  ghost predicate ClosedDocument(document: Json, m: Metadata, payload: Bytes, h: Hashes) {
    && document.Obj? && DeclaresNames(document.fields, m)
    && ClosedTable(Field(document.fields, "sections"), m.sections, payload, h)
    && ClosedLists(Field(document.fields, "entries"), m)
    && ValidMetadata(document.fields, m, h)
  }

  lemma ListsIffClosed(entries: Json, m: Metadata)
    ensures ClosedLists(entries, m) <==>
      && entries.Obj? && entries.fields.Keys == FILE_ROLES
      && RoleEntries(entries.fields, "index", m.sections) == Some(m.index)
      && RoleEntries(entries.fields, "worktree", m.sections) == Some(m.worktree)
      && RoleEntries(entries.fields, "untracked", m.sections) == Some(m.untracked)
  {
    if entries.Obj? {
      ListIffClosed(entries.fields, "index", m.sections, m.index);
      ListIffClosed(entries.fields, "worktree", m.sections, m.worktree);
      ListIffClosed(entries.fields, "untracked", m.sections, m.untracked);
    }
  }

  lemma MetadataIsClosedDocument(fields: map<string, Json>, m: Metadata, h: Hashes)
    requires MetadataOf(fields, m.sections) == Some(m) && ValidMetadata(fields, m, h)
    ensures DeclaresNames(fields, m) && ClosedLists(Field(fields, "entries"), m)
  {
    ListsIffClosed(Field(fields, "entries"), m);
  }

  lemma ClosedDocumentIsMetadata(fields: map<string, Json>, m: Metadata)
    requires DeclaresNames(fields, m) && ClosedLists(Field(fields, "entries"), m)
    ensures MetadataOf(fields, m.sections) == Some(m)
  {
    ListsIffClosed(Field(fields, "entries"), m);
  }

  lemma DocumentIffClosed(fields: map<string, Json>, m: Metadata, payload: Bytes, h: Hashes)
    ensures ClosedDocument(Obj(fields), m, payload, h) <==>
      && SectionsOf(Field(fields, "sections"), payload, h) == Some(m.sections)
      && MetadataOf(fields, m.sections) == Some(m) && ValidMetadata(fields, m, h)
  {
    TableIffClosed(Field(fields, "sections"), payload, h, m.sections);
    if MetadataOf(fields, m.sections) == Some(m) && ValidMetadata(fields, m, h) {
      MetadataIsClosedDocument(fields, m, h);
    }
    if DeclaresNames(fields, m) && ClosedLists(Field(fields, "entries"), m) {
      ClosedDocumentIsMetadata(fields, m);
    }
  }

  /** The packet is the bounded envelope of a closed document over this payload. */
  ghost predicate IsPacketOf(packet: Bytes, metadata: Bytes, decode: Bytes -> Option<Json>, h: Hashes, m: Metadata,
                             payload: Bytes) {
    && 2 <= |metadata| <= MAX_METADATA_BYTES && |packet| <= MAX_PACKET_BYTES
    && packet == Envelope(metadata, payload)
    && decode(metadata).Some? && ClosedDocument(decode(metadata).value, m, payload, h)
  }

  /** The three stages of parsing, for a packet whose parts are known. */
  lemma ParsedStages(packet: Bytes, metadata: Bytes, decode: Bytes -> Option<Json>, h: Hashes, m: Metadata,
                     payload: Bytes)
    requires Parts(packet) == Some((metadata, payload))
    ensures ParsePacket(packet, decode, h) == Some((m, payload)) <==>
      && decode(metadata).Some? && decode(metadata).value.Obj?
      && var fields := decode(metadata).value.fields;
        && SectionsOf(Field(fields, "sections"), payload, h) == Some(m.sections)
        && MetadataOf(fields, m.sections) == Some(m) && ValidMetadata(fields, m, h)
  {
    if decode(metadata).Some? && decode(metadata).value.Obj? {
      var fields := decode(metadata).value.fields;
      var sections := SectionsOf(Field(fields, "sections"), payload, h);
      if sections.Some? && MetadataOf(fields, sections.value).Some? {
        MetadataParts(fields, sections.value);
      }
    }
  }

  lemma StagesAreClosed(packet: Bytes, metadata: Bytes, decode: Bytes -> Option<Json>, h: Hashes, m: Metadata,
                        payload: Bytes)
    requires Parts(packet) == Some((metadata, payload))
    ensures ParsePacket(packet, decode, h) == Some((m, payload))
      <==> decode(metadata).Some? && ClosedDocument(decode(metadata).value, m, payload, h)
  {
    ParsedStages(packet, metadata, decode, h, m, payload);
    if decode(metadata).Some? && decode(metadata).value.Obj? {
      DocumentIffClosed(decode(metadata).value.fields, m, payload, h);
    }
  }

  /**
   A packet is accepted, as this metadata and payload, if and only if it is the envelope of a document that
   is closed: exactly its fields, a table that tiles the payload, sorted lists, and matching identities.
   */
  lemma AcceptedIffClosed(packet: Bytes, decode: Bytes -> Option<Json>, h: Hashes, m: Metadata, payload: Bytes)
    ensures ParsePacket(packet, decode, h) == Some((m, payload))
      <==> exists metadata :: IsPacketOf(packet, metadata, decode, h, m, payload)
  {
    if ParsePacket(packet, decode, h) == Some((m, payload)) {
      var metadata := Parts(packet).value.0;
      EnvelopeRoundTrip(packet, metadata, payload);
      StagesAreClosed(packet, metadata, decode, h, m, payload);
      assert IsPacketOf(packet, metadata, decode, h, m, payload);
    }
    if metadata :| IsPacketOf(packet, metadata, decode, h, m, payload) {
      EnvelopeRoundTrip(packet, metadata, payload);
      StagesAreClosed(packet, metadata, decode, h, m, payload);
    }
  }
}
