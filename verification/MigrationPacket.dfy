/**
 The closed dirty-work packet format (tools/incus_sandbox/migration_packet.py): a length envelope,
 a section table that tiles the payload, and sorted entries that name their sections.
 */
module MigrationPacket {
  import opened Wrappers
  import opened TextOrder
  import opened Values
  import W = Workspace

  const MAX_METADATA_BYTES := 8 * 1024 * 1024
  const MAX_PACKET_BYTES := 1024 * 1024 * 1024
  const MAX_FILE_COUNT := 2048
  const MAX_FILE_BYTES := 64 * 1024 * 1024
  const MAX_HANDOFF_BYTES := 64 * 1024

  const SCHEMA := "gc.incus-sandbox.migration/v1"
  const MODES := {"100644", "100755", "120000"}
  const FILE_ROLES := {"index", "worktree", "untracked"}
  const ROLES := {"bundle", "index", "worktree", "untracked", "handoff"}

  datatype Section = Section(role: string, offset: int, length: nat, digest: string, path: string, mode: string)

  /** One validated entry; `section` is -1 for a deletion. */
  datatype Entry = Entry(path: string, deleted: bool, mode: string, section: int)

  datatype Metadata = Metadata(migrationId: string, commit: string, branch: Option<string>, stateDigest: string,
                               bundleSection: int, handoffSection: int, sections: seq<Section>,
                               index: seq<Entry>, worktree: seq<Entry>, untracked: seq<Entry>)

  datatype EntryIdentity = EntryIdentity(path: string, deleted: bool, mode: string, digest: string)
  datatype StateIdentity = StateIdentity(commit: string, branch: Option<string>, index: seq<EntryIdentity>,
                                         worktree: seq<EntryIdentity>, untracked: seq<EntryIdentity>)

  /** The digests of a section's bytes, of the captured state, and of the migration's identity. */
  datatype Hashes = Hashes(ofBytes: Bytes -> string, ofState: StateIdentity -> string,
                           ofMigration: (string, string) -> string)

  // ---- field validators -----------------------------------------------------------

  /** Python's isinstance(value, int) accepts booleans. */
  function AsInt(value: Json): Option<int> {
    match value
    case Int(n) => Some(n)
    case Bool(b) => Some(if b then 1 else 0)
    case _ => None
  }

  predicate IsHex(s: string) {
    forall i :: 0 <= i < |s| ==> '0' <= s[i] <= '9' || 'a' <= s[i] <= 'f'
  }

  predicate IsDigest(s: string) {
    |s| == 64 && IsHex(s)
  }

  function Split(s: string, separator: char): seq<string> {
    if s == [] then [""]
    else if s[0] == separator then [""] + Split(s[1..], separator)
    else
      var rest := Split(s[1..], separator);
      if rest == [] then [[s[0]]] else [[s[0]] + rest[0]] + rest[1..]
  }

  /** A normalized checkout-relative path. The code also accepts ".", which has no parts to refuse. */
  predicate SafePath(s: string) {
    && s != [] && '\0' !in s && '\\' !in s
    && (s == "." || forall part :: part in Split(s, '/') ==> part !in {"", ".", "..", ".git"})
  }

  // ---- paths as pathlib reads them ------------------------------------------------------

  function Joined(parts: seq<string>): string {
    if parts == [] then ""
    else if |parts| == 1 then parts[0]
    else parts[0] + "/" + Joined(parts[1..])
  }

  /** A relative posix path drops its empty and its "." parts. */
  function PathParts(parts: seq<string>): seq<string> {
    if parts == [] then []
    else (if parts[0] in {"", "."} then [] else [parts[0]]) + PathParts(parts[1..])
  }

  function AsPosix(s: string): string
    requires s != [] && s[0] != '/'
  {
    var parts := PathParts(Split(s, '/'));
    if parts == [] then "." else Joined(parts)
  }

  /** The test as the code makes it: relative, unchanged by normalization, and no part refused. */
  predicate NormalRelativePath(s: string) {
    && s != [] && '\0' !in s && '\\' !in s
    && s[0] != '/' && s == AsPosix(s)
    && forall part :: part in PathParts(Split(s, '/')) ==> part !in {"", ".", "..", ".git"}
  }

  lemma {:induction false} SplitParts(s: string)
    ensures Split(s, '/') != [] && Joined(Split(s, '/')) == s
    ensures forall part :: part in Split(s, '/') ==> '/' !in part
  {
    if s != [] {
      var rest := Split(s[1..], '/');
      SplitParts(s[1..]);
      assert s == [s[0]] + s[1..];
      if s[0] == '/' {
        assert ([""] + rest)[1..] == rest;
      } else {
        assert ([[s[0]] + rest[0]] + rest[1..])[1..] == rest[1..];
      }
    }
  }

  lemma {:induction false} SplitOfPart(part: string, rest: string)
    requires '/' !in part
    ensures Split(part, '/') == [part]
    ensures Split(part + "/" + rest, '/') == [part] + Split(rest, '/')
  {
    var whole := part + "/" + rest;
    if part == [] {
      assert whole[1..] == rest;
    } else {
      SplitOfPart(part[1..], rest);
      assert part == [part[0]] + part[1..] && whole[1..] == part[1..] + "/" + rest;
    }
  }

  lemma {:induction false} SplitOfJoined(parts: seq<string>)
    requires parts != [] && forall part :: part in parts ==> '/' !in part
    ensures Split(Joined(parts), '/') == parts
  {
    SplitOfPart(parts[0], Joined(parts[1..]));
    if |parts| > 1 {
      SplitOfJoined(parts[1..]);
    }
  }

  lemma {:induction false} PartsKept(parts: seq<string>)
    ensures forall part :: part in PathParts(parts) <==> part in parts && part !in {"", "."}
    ensures "" !in parts && "." !in parts ==> PathParts(parts) == parts
  {
    if parts != [] {
      PartsKept(parts[1..]);
      assert parts == [parts[0]] + parts[1..];
    }
  }

  /** The path rule by its parts is the code's rule by normalization. */
  lemma SafePathIsNormal(s: string)
    ensures SafePath(s) <==> NormalRelativePath(s)
  {
    var parts := Split(s, '/');
    SplitParts(s);
    PartsKept(parts);
    if s == "." {
      SplitOfPart(".", "");
    } else if SafePath(s) {
      assert parts[0] in parts;
      if s[0] == '/' {
        assert false;
      }
    } else if NormalRelativePath(s) {
      SplitOfJoined(PathParts(parts));
    }
  }

  /** The one accepted path with a "." part is the checkout's own directory. */
  lemma DotIsTheOnlyDottedPath(s: string)
    requires "." in Split(s, '/')
    ensures SafePath(s) <==> s == "."
  {
  }

  // ---- sections ------------------------------------------------------------------------

  /** One section's own fields, before its place in the payload is known. */
  function SectionOf(raw: Json): Option<Section> {
    if !raw.Obj? then None
    else
      var role :- AsText(Field(raw.fields, "role"));
      var offset :- AsInt(Field(raw.fields, "offset"));
      var length :- AsInt(Field(raw.fields, "length"));
      var digest :- AsText(Field(raw.fields, "sha256"));
      var isFile := role in FILE_ROLES;
      var names := {"role", "offset", "length", "sha256"} + if isFile then {"path", "mode"} else {};
      var path := if isFile then AsText(Field(raw.fields, "path")) else Some("");
      var mode := if isFile then AsText(Field(raw.fields, "mode")) else Some("");
      if role !in ROLES || raw.fields.Keys != names then None
      else if !(0 <= length <= if role == "bundle" then MAX_PACKET_BYTES else MAX_FILE_BYTES) then None
      else if !IsDigest(digest) || (role == "handoff" && length > MAX_HANDOFF_BYTES) then None
      else if path.None? || mode.None? || (isFile && !(SafePath(path.value) && mode.value in MODES)) then None
      else Some(Section(role, offset, length, digest, path.value, mode.value))
  }

  function Slice(payload: Bytes, s: Section): Bytes
    requires 0 <= s.offset && s.offset + s.length <= |payload|
  {
    payload[s.offset..s.offset + s.length]
  }

  function CheckedSection(raw: Json, payload: Bytes, cursor: nat, h: Hashes): Option<Section> {
    var s :- SectionOf(raw);
    if s.offset != cursor || s.offset + s.length > |payload| then None
    else if h.ofBytes(Slice(payload, s)) != s.digest then None
    else Some(s)
  }

  function SectionsFrom(raws: seq<Json>, payload: Bytes, cursor: nat, h: Hashes): Option<seq<Section>> {
    if raws == [] then (if cursor == |payload| then Some([]) else None)
    else
      var s :- CheckedSection(raws[0], payload, cursor, h);
      Onto([s], SectionsFrom(raws[1..], payload, cursor + s.length, h))
  }

  function CountRole(sections: seq<Section>, role: string): nat {
    if sections == [] then 0
    else (if sections[0].role == role then 1 else 0) + CountRole(sections[1..], role)
  }

  function SectionsOf(raw: Json, payload: Bytes, h: Hashes): Option<seq<Section>> {
    if !raw.Arr? || !(2 <= |raw.items| <= MAX_FILE_COUNT + 2) then None
    else
      var sections :- SectionsFrom(raw.items, payload, 0, h);
      if CountRole(sections, "bundle") == 1 && CountRole(sections, "handoff") == 1 then Some(sections) else None
  }

  /** The loop over the rows, whose cursor says where the next section must start. */
  method ScanSections(raws: seq<Json>, payload: Bytes, h: Hashes) returns (r: Option<seq<Section>>)
    ensures r == SectionsFrom(raws, payload, 0, h)
  {
    var sections: seq<Section> := [];
    var cursor: nat := 0;
    var i := 0;
    OntoNothing(SectionsFrom(raws, payload, 0, h));
    assert raws[0..] == raws;
    while i < |raws|
      invariant 0 <= i <= |raws|
      invariant SectionsFrom(raws, payload, 0, h) == Onto(sections, SectionsFrom(raws[i..], payload, cursor, h))
    {
      var section := CheckedSection(raws[i], payload, cursor, h);
      SectionsNext(raws, i, payload, cursor, h, sections);
      if section.None? {
        return None;
      }
      cursor := cursor + section.value.length;
      sections := sections + [section.value];
      i := i + 1;
    }
    assert raws[i..] == [] && sections + [] == sections;
    r := if cursor == |payload| then Some(sections) else None;
  }

  method ValidateSections(raw: Json, payload: Bytes, h: Hashes) returns (r: Option<seq<Section>>)
    ensures r == SectionsOf(raw, payload, h)
  {
    if !raw.Arr? || !(2 <= |raw.items| <= MAX_FILE_COUNT + 2) {
      return None;
    }
    var sections := ScanSections(raw.items, payload, h);
    if sections.None? || CountRole(sections.value, "bundle") != 1 || CountRole(sections.value, "handoff") != 1 {
      return None;
    }
    r := sections;
  }

  function Onto<T>(done: seq<T>, rest: Option<seq<T>>): Option<seq<T>> {
    if rest.None? then None else Some(done + rest.value)
  }

  lemma OntoNothing<T>(rest: Option<seq<T>>)
    ensures Onto([], rest) == rest
  {
    if rest.Some? {
      assert [] + rest.value == rest.value;
    }
  }

  lemma SectionsNext(raws: seq<Json>, i: nat, payload: Bytes, cursor: nat, h: Hashes, done: seq<Section>)
    requires i < |raws|
    ensures var s := CheckedSection(raws[i], payload, cursor, h);
      && (s.None? ==> SectionsFrom(raws[i..], payload, cursor, h).None?)
      && (s.Some? ==> (Onto(done, SectionsFrom(raws[i..], payload, cursor, h))
            == Onto(done + [s.value], SectionsFrom(raws[i + 1..], payload, cursor + s.value.length, h))))
  {
    var s := CheckedSection(raws[i], payload, cursor, h);
    assert raws[i..][0] == raws[i] && raws[i..][1..] == raws[i + 1..];
    if s.Some? {
      OntoOneMore(done, s.value, SectionsFrom(raws[i + 1..], payload, cursor + s.value.length, h));
    }
  }

  lemma OntoOneMore<T>(done: seq<T>, next: T, rest: Option<seq<T>>)
    ensures Onto(done, Onto([next], rest)) == Onto(done + [next], rest)
  {
    if rest.Some? {
      assert done + ([next] + rest.value) == done + [next] + rest.value;
    }
  }

  // ---- the section table tiles the payload ------------------------------------------------

  function Total(sections: seq<Section>): nat {
    if sections == [] then 0 else sections[0].length + Total(sections[1..])
  }

  /** From `cursor` on, every section starts where the one before it ends, up to the payload's end. */
  ghost predicate Tiles(sections: seq<Section>, payload: Bytes, cursor: nat) {
    && cursor + Total(sections) == |payload|
    && forall i :: 0 <= i < |sections| ==> sections[i].offset == cursor + Total(sections[..i])
  }

  lemma {:induction false} TotalPrefix(sections: seq<Section>, i: nat)
    requires i < |sections|
    ensures Total(sections[..i]) + sections[i].length <= Total(sections)
    ensures i > 0 ==> Total(sections[..i]) == sections[0].length + Total(sections[1..][..i - 1])
  {
    if i > 0 {
      assert sections[..i][1..] == sections[1..][..i - 1];
      TotalPrefix(sections[1..], i - 1);
    }
  }

  lemma {:induction false} TilesTail(sections: seq<Section>, payload: Bytes, cursor: nat)
    requires sections != []
    ensures Tiles(sections, payload, cursor)
      <==> sections[0].offset == cursor && Tiles(sections[1..], payload, cursor + sections[0].length)
  {
    var rest := sections[1..];
    forall i | 0 < i < |sections|
      ensures Total(sections[..i]) == sections[0].length + Total(rest[..i - 1])
    {
      TotalPrefix(sections, i);
    }
    if sections[0].offset == cursor && Tiles(rest, payload, cursor + sections[0].length) {
      forall i | 0 <= i < |sections| ensures sections[i].offset == cursor + Total(sections[..i]) {
        if i > 0 { assert sections[i] == rest[i - 1]; }
      }
    }
    if Tiles(sections, payload, cursor) {
      forall i | 0 <= i < |rest| ensures rest[i].offset == cursor + sections[0].length + Total(rest[..i]) {
        assert rest[i] == sections[i + 1];
      }
      assert sections[0].offset == cursor + Total(sections[..0]);
    }
  }

  /** Every section lies inside the payload and has the digest it declares. */
  ghost predicate SlicesMatch(sections: seq<Section>, payload: Bytes, h: Hashes) {
    forall i :: 0 <= i < |sections| ==> SliceMatches(sections[i], payload, h)
  }

  predicate SliceMatches(s: Section, payload: Bytes, h: Hashes) {
    && 0 <= s.offset && s.offset + s.length <= |payload|
    && h.ofBytes(Slice(payload, s)) == s.digest
  }

  ghost predicate Rows(raws: seq<Json>, sections: seq<Section>) {
    && |sections| == |raws|
    && forall i :: 0 <= i < |raws| ==> SectionOf(raws[i]) == Some(sections[i])
  }

  lemma RowsTail(raws: seq<Json>, sections: seq<Section>)
    requires raws != [] && sections != []
    ensures Rows(raws, sections) <==> SectionOf(raws[0]) == Some(sections[0]) && Rows(raws[1..], sections[1..])
  {
    if SectionOf(raws[0]) == Some(sections[0]) && Rows(raws[1..], sections[1..]) {
      forall i | 0 <= i < |raws| ensures SectionOf(raws[i]) == Some(sections[i]) {
        if i > 0 { assert raws[i] == raws[1..][i - 1] && sections[i] == sections[1..][i - 1]; }
      }
    }
  }

  lemma SlicesTail(sections: seq<Section>, payload: Bytes, h: Hashes)
    requires sections != []
    ensures SlicesMatch(sections, payload, h)
      <==> SliceMatches(sections[0], payload, h) && SlicesMatch(sections[1..], payload, h)
  {
    if SliceMatches(sections[0], payload, h) && SlicesMatch(sections[1..], payload, h) {
      forall i | 0 <= i < |sections| ensures SliceMatches(sections[i], payload, h) {
        if i > 0 { assert sections[i] == sections[1..][i - 1]; }
      }
    }
  }

  lemma SectionsStep(raws: seq<Json>, payload: Bytes, cursor: nat, h: Hashes, sections: seq<Section>)
    requires raws != [] && sections != []
    ensures SectionsFrom(raws, payload, cursor, h) == Some(sections) <==>
      && CheckedSection(raws[0], payload, cursor, h) == Some(sections[0])
      && SectionsFrom(raws[1..], payload, cursor + sections[0].length, h) == Some(sections[1..])
  {
    var checked := CheckedSection(raws[0], payload, cursor, h);
    if checked.Some? {
      var rest := SectionsFrom(raws[1..], payload, cursor + checked.value.length, h);
      if rest.Some? {
        assert ([checked.value] + rest.value)[0] == checked.value && ([checked.value] + rest.value)[1..] == rest.value;
      }
      assert [sections[0]] + sections[1..] == sections;
    }
  }

  lemma CheckedMeaning(raw: Json, payload: Bytes, cursor: nat, h: Hashes, s: Section)
    ensures CheckedSection(raw, payload, cursor, h) == Some(s)
      <==> SectionOf(raw) == Some(s) && s.offset == cursor && SliceMatches(s, payload, h)
  {
  }

  ghost predicate Accepts(raws: seq<Json>, payload: Bytes, cursor: nat, h: Hashes, sections: seq<Section>) {
    Rows(raws, sections) && Tiles(sections, payload, cursor) && SlicesMatch(sections, payload, h)
  }

  lemma AcceptsStep(raws: seq<Json>, payload: Bytes, cursor: nat, h: Hashes, sections: seq<Section>)
    requires raws != [] && sections != []
    ensures Accepts(raws, payload, cursor, h, sections) <==>
      && CheckedSection(raws[0], payload, cursor, h) == Some(sections[0])
      && Accepts(raws[1..], payload, cursor + sections[0].length, h, sections[1..])
  {
    RowsTail(raws, sections);
    TilesTail(sections, payload, cursor);
    SlicesTail(sections, payload, h);
    CheckedMeaning(raws[0], payload, cursor, h, sections[0]);
  }

  /** The section table is accepted exactly when its rows are well formed, tile the payload and match it. */
  lemma {:induction false} SectionsMeaning(raws: seq<Json>, payload: Bytes, cursor: nat, h: Hashes,
                                           sections: seq<Section>)
    ensures SectionsFrom(raws, payload, cursor, h) == Some(sections) <==> Accepts(raws, payload, cursor, h, sections)
    decreases |raws|
  {
    if raws != [] && sections != [] {
      SectionsStep(raws, payload, cursor, h, sections);
      AcceptsStep(raws, payload, cursor, h, sections);
      SectionsMeaning(raws[1..], payload, cursor + sections[0].length, h, sections[1..]);
    } else {
      EmptyTable(raws, payload, cursor, h, sections);
    }
  }

  lemma EmptyTable(raws: seq<Json>, payload: Bytes, cursor: nat, h: Hashes, sections: seq<Section>)
    requires raws == [] || sections == []
    ensures SectionsFrom(raws, payload, cursor, h) == Some(sections) <==> Accepts(raws, payload, cursor, h, sections)
  {
    if raws != [] {
      assert !Rows(raws, sections);
    }
  }

  ghost predicate Inside(sections: seq<Section>, payload: Bytes) {
    forall s :: s in sections ==> 0 <= s.offset && s.offset + s.length <= |payload|
  }

  ghost function Concat(sections: seq<Section>, payload: Bytes): Bytes
    requires Inside(sections, payload)
  {
    if sections == [] then [] else Slice(payload, sections[0]) + Concat(sections[1..], payload)
  }

  lemma TiledAreInside(sections: seq<Section>, payload: Bytes, cursor: nat)
    requires Tiles(sections, payload, cursor)
    ensures Inside(sections, payload)
  {
    forall s | s in sections ensures 0 <= s.offset && s.offset + s.length <= |payload| {
      var i :| 0 <= i < |sections| && sections[i] == s;
      TotalPrefix(sections, i);
    }
  }

  lemma TakeThenRest(payload: Bytes, cursor: nat, length: nat)
    requires cursor + length <= |payload|
    ensures payload[cursor..cursor + length] + payload[cursor + length..] == payload[cursor..]
  {
  }

  /** Put end to end, the sections are exactly the payload: no gap, no overlap, no unclaimed byte. */
  lemma {:induction false} SectionsConcatToPayload(sections: seq<Section>, payload: Bytes, cursor: nat)
    requires Tiles(sections, payload, cursor)
    ensures Inside(sections, payload) && Concat(sections, payload) == payload[cursor..]
  {
    TiledAreInside(sections, payload, cursor);
    if sections != [] {
      TilesTail(sections, payload, cursor);
      SectionsConcatToPayload(sections[1..], payload, cursor + sections[0].length);
      assert sections[0] in sections;
      TakeThenRest(payload, cursor, sections[0].length);
    } else {
      assert payload[cursor..] == [];
    }
  }

  // ---- entries -------------------------------------------------------------------------------

  function EntryOf(item: Json, role: string, sections: seq<Section>): Option<Entry> {
    if !item.Obj? then None
    else
      var path :- AsText(Field(item.fields, "path"));
      var deleted := Field(item.fields, "deleted") == Bool(true);
      var names := if deleted then {"path", "deleted"} else {"path", "mode", "section"};
      if !SafePath(path) || item.fields.Keys != names || (deleted && role == "untracked") then None
      else if deleted then Some(Entry(path, true, "", -1))
      else
        var mode :- AsText(Field(item.fields, "mode"));
        var index :- AsInt(Field(item.fields, "section"));
        if mode in MODES && 0 <= index < |sections|
          && sections[index].role == role && sections[index].path == path && sections[index].mode == mode
        then Some(Entry(path, false, mode, index))
        else None
  }

  function CheckedEntry(item: Json, role: string, previous: string, sections: seq<Section>): Option<Entry> {
    var e :- EntryOf(item, role, sections);
    if LexLess(previous, e.path) then Some(e) else None
  }

  function EntriesFrom(items: seq<Json>, role: string, previous: string, sections: seq<Section>): Option<seq<Entry>> {
    if items == [] then Some([])
    else
      var e :- CheckedEntry(items[0], role, previous, sections);
      var rest :- EntriesFrom(items[1..], role, e.path, sections);
      Some([e] + rest)
  }

  function RoleEntries(fields: map<string, Json>, role: string, sections: seq<Section>): Option<seq<Entry>> {
    var items := Field(fields, role);
    if items.Arr? then EntriesFrom(items.items, role, "", sections) else None
  }

  method ValidateRole(items: seq<Json>, role: string, sections: seq<Section>) returns (r: Option<seq<Entry>>)
    ensures r == EntriesFrom(items, role, "", sections)
  {
    var validated: seq<Entry> := [];
    var previous := "";
    var i := 0;
    OntoNothing(EntriesFrom(items, role, "", sections));
    assert items[0..] == items;
    while i < |items|
      invariant 0 <= i <= |items|
      invariant EntriesFrom(items, role, "", sections)
        == Onto(validated, EntriesFrom(items[i..], role, previous, sections))
    {
      var entry := CheckedEntry(items[i], role, previous, sections);
      EntriesNext(items, i, role, previous, sections, validated);
      if entry.None? {
        return None;
      }
      previous := entry.value.path;
      validated := validated + [entry.value];
      i := i + 1;
    }
    assert validated + [] == validated;
    r := Some(validated);
  }

  lemma EntriesNext(items: seq<Json>, i: nat, role: string, previous: string, sections: seq<Section>, done: seq<Entry>)
    requires i < |items|
    ensures var e := CheckedEntry(items[i], role, previous, sections);
      && (e.None? ==> EntriesFrom(items[i..], role, previous, sections).None?)
      && (e.Some? ==> (Onto(done, EntriesFrom(items[i..], role, previous, sections))
            == Onto(done + [e.value], EntriesFrom(items[i + 1..], role, e.value.path, sections))))
  {
    var e := CheckedEntry(items[i], role, previous, sections);
    assert items[i..][1..] == items[i + 1..];
    if e.Some? {
      var rest := EntriesFrom(items[i + 1..], role, e.value.path, sections);
      if rest.Some? {
        assert done + ([e.value] + rest.value) == done + [e.value] + rest.value;
      }
    }
  }

  ghost predicate StrictlySorted(entries: seq<Entry>) {
    forall i, j {:trigger entries[i], entries[j]} :: 0 <= i < j < |entries|
      ==> LexLess(entries[i].path, entries[j].path)
  }

  /** A live entry names a section of its own role, path and mode; only tracked paths are deleted. */
  predicate EntryFits(e: Entry, role: string, sections: seq<Section>) {
    && SafePath(e.path)
    && (e.deleted ==> role != "untracked")
    && (!e.deleted ==>
          && 0 <= e.section < |sections| && e.mode in MODES && sections[e.section].role == role
          && sections[e.section].path == e.path && sections[e.section].mode == e.mode)
  }

  ghost predicate EntryRows(items: seq<Json>, role: string, sections: seq<Section>, entries: seq<Entry>) {
    && |entries| == |items|
    && forall i :: 0 <= i < |items| ==> EntryOf(items[i], role, sections) == Some(entries[i])
  }

  /** The entry list is accepted exactly when every item is well formed and paths strictly increase. */
  lemma {:induction false} EntriesMeaning(items: seq<Json>, role: string, previous: string, sections: seq<Section>,
                                          entries: seq<Entry>)
    ensures EntriesFrom(items, role, previous, sections) == Some(entries) <==>
      && EntryRows(items, role, sections, entries)
      && StrictlySorted(entries)
      && (entries != [] ==> LexLess(previous, entries[0].path))
  {
    if items != [] && entries != [] {
      var first := CheckedEntry(items[0], role, previous, sections);
      EntryRowsTail(items, role, sections, entries);
      SortedTail(entries);
      if first == Some(entries[0]) {
        EntriesMeaning(items[1..], role, entries[0].path, sections, entries[1..]);
        PrependEntry(EntriesFrom(items[1..], role, entries[0].path, sections), entries);
      }
    }
  }

  lemma EntryRowsTail(items: seq<Json>, role: string, sections: seq<Section>, entries: seq<Entry>)
    requires items != [] && entries != []
    ensures EntryRows(items, role, sections, entries) <==>
      EntryOf(items[0], role, sections) == Some(entries[0]) && EntryRows(items[1..], role, sections, entries[1..])
  {
    if EntryOf(items[0], role, sections) == Some(entries[0]) && EntryRows(items[1..], role, sections, entries[1..]) {
      forall i | 0 <= i < |items| ensures EntryOf(items[i], role, sections) == Some(entries[i]) {
        if i > 0 { assert items[i] == items[1..][i - 1] && entries[i] == entries[1..][i - 1]; }
      }
    }
  }

  lemma SortedTail(entries: seq<Entry>)
    requires entries != []
    ensures StrictlySorted(entries) <==>
      StrictlySorted(entries[1..]) && (|entries| > 1 ==> LexLess(entries[0].path, entries[1].path))
  {
    var rest := entries[1..];
    if StrictlySorted(rest) && (|entries| > 1 ==> LexLess(entries[0].path, entries[1].path)) {
      forall i, j | 0 <= i < j < |entries| ensures LexLess(entries[i].path, entries[j].path) {
        if i > 0 {
          assert entries[i] == rest[i - 1] && entries[j] == rest[j - 1];
        } else if j > 1 {
          assert entries[1] == rest[0] && entries[j] == rest[j - 1];
          LexLessTransitive(entries[0].path, entries[1].path, entries[j].path);
        }
      }
    }
  }

  lemma PrependEntry(rest: Option<seq<Entry>>, entries: seq<Entry>)
    requires entries != []
    ensures rest.Some? ==> ([entries[0]] + rest.value == entries <==> rest.value == entries[1..])
  {
    if rest.Some? {
      assert ([entries[0]] + rest.value)[1..] == rest.value;
      assert [entries[0]] + entries[1..] == entries;
    }
  }

  lemma EntryOfFits(item: Json, role: string, sections: seq<Section>)
    ensures EntryOf(item, role, sections).Some? ==> EntryFits(EntryOf(item, role, sections).value, role, sections)
  {
  }

  // ---- the length envelope ----------------------------------------------------------------------

  const MAGIC: Bytes := [0x47, 0x43, 0x53, 0x31]

  function BigEndian(b: Bytes): nat
    requires |b| == 4
  {
    ((b[0] as nat * 256 + b[1] as nat) * 256 + b[2] as nat) * 256 + b[3] as nat
  }

  function ToBigEndian(n: nat): Bytes
    requires n < 0x1_0000_0000
  {
    assert n / 256 < 0x100_0000 && n / 256 / 256 < 0x1_0000;
    [(n / 256 / 256 / 256) as Byte, (n / 256 / 256 % 256) as Byte, (n / 256 % 256) as Byte, (n % 256) as Byte]
  }

  function Envelope(metadata: Bytes, payload: Bytes): Bytes
    requires |metadata| < 0x1_0000_0000
  {
    MAGIC + ToBigEndian(|metadata|) + metadata + payload
  }

  /** The metadata bytes and the payload of a bounded packet. */
  function Parts(packet: Bytes): Option<(Bytes, Bytes)> {
    if |packet| > MAX_PACKET_BYTES || |packet| < 8 || packet[..4] != MAGIC then None
    else
      var length := BigEndian(packet[4..8]);
      if 2 <= length <= MAX_METADATA_BYTES && |packet| >= 8 + length
      then Some((packet[8..8 + length], packet[8 + length..]))
      else None
  }

  lemma BigEndianRoundTrip(n: nat)
    requires n < 0x1_0000_0000
    ensures BigEndian(ToBigEndian(n)) == n
  {
    assert n / 256 / 256 / 256 * 256 + n / 256 / 256 % 256 == n / 256 / 256;
    assert n / 256 / 256 * 256 + n / 256 % 256 == n / 256;
  }

  lemma AppendByte(q: nat, b: Byte)
    ensures (q * 256 + b as nat) / 256 == q && (q * 256 + b as nat) % 256 == b as nat
  {
  }

  lemma BigEndianInjective(b: Bytes)
    requires |b| == 4
    ensures BigEndian(b) < 0x1_0000_0000 && ToBigEndian(BigEndian(b)) == b
  {
    AppendByte(b[0] as nat, b[1]);
    AppendByte(b[0] as nat * 256 + b[1] as nat, b[2]);
    AppendByte((b[0] as nat * 256 + b[1] as nat) * 256 + b[2] as nat, b[3]);
  }

  /** Parsing undoes the envelope, and accepts nothing but envelopes. */
  lemma EnvelopeRoundTrip(packet: Bytes, metadata: Bytes, payload: Bytes)
    ensures Parts(packet) == Some((metadata, payload)) <==>
      && 2 <= |metadata| <= MAX_METADATA_BYTES && |packet| <= MAX_PACKET_BYTES
      && packet == Envelope(metadata, payload)
  {
    if 2 <= |metadata| <= MAX_METADATA_BYTES && packet == Envelope(metadata, payload) {
      BigEndianRoundTrip(|metadata|);
      var header := MAGIC + ToBigEndian(|metadata|);
      assert |MAGIC| == 4 && |header| == 8 && header[..4] == MAGIC && header[4..] == ToBigEndian(|metadata|);
      assert packet == header + metadata + payload && packet[..8] == header;
      assert packet[..4] == packet[..8][..4] && packet[4..8] == packet[..8][4..];
      assert packet[8..8 + |metadata|] == metadata && packet[8 + |metadata|..] == payload;
    }
    if Parts(packet) == Some((metadata, payload)) {
      BigEndianInjective(packet[4..8]);
      assert packet == packet[..4] + packet[4..8] + packet[8..8 + |metadata|] + packet[8 + |metadata|..];
    }
  }

  // ---- the whole packet ----------------------------------------------------------------------------

  predicate IsRepository(s: string) {
    var parts := Split(s, '/');
    |parts| == 2 && IsSlug(parts[0]) && IsSlug(parts[1])
  }

  predicate IsSlug(s: string) {
    1 <= |s| <= 100 && forall i :: 0 <= i < |s| ==>
      'a' <= s[i] <= 'z' || '0' <= s[i] <= '9' || s[i] in {'_', '.', '-'}
  }

  /** The closed top-level field set, with the optional environment binding. */
  predicate ValidShape(fields: map<string, Json>) {
    var core := {"schema", "migration_id", "commit", "branch", "state_digest", "bundle_section",
                 "handoff_section", "entries", "sections"};
    var binding := {"repository_identity", "environment_digest"};
    && (fields.Keys == core || fields.Keys == core + binding)
    && Field(fields, "schema") == Str(SCHEMA)
    && (fields.Keys == core + binding ==>
          && Field(fields, "repository_identity").Str? && IsRepository(fields["repository_identity"].text)
          && Field(fields, "environment_digest").Str? && IsDigest(fields["environment_digest"].text))
  }

  predicate ValidBranch(value: Json) {
    value.Null? || (value.Str? && |value.text| <= 255 && !("-" <= value.text) && !HasDotDot(value.text))
  }

  predicate HasDotDot(s: string) {
    exists i :: 0 <= i < |s| - 1 && s[i] == '.' && s[i + 1] == '.'
  }

  predicate References(index: Option<int>, sections: seq<Section>, role: string) {
    index.Some? && 0 <= index.value < |sections| && sections[index.value].role == role
  }

  function IdentityOf(e: Entry, sections: seq<Section>): EntryIdentity {
    if !e.deleted && 0 <= e.section < |sections|
    then EntryIdentity(e.path, false, e.mode, sections[e.section].digest)
    else EntryIdentity(e.path, true, "", "")
  }

  function Identities(entries: seq<Entry>, sections: seq<Section>): seq<EntryIdentity> {
    seq(|entries|, i requires 0 <= i < |entries| => IdentityOf(entries[i], sections))
  }

  function StateOf(m: Metadata): StateIdentity {
    StateIdentity(m.commit, m.branch, Identities(m.index, m.sections), Identities(m.worktree, m.sections),
                  Identities(m.untracked, m.sections))
  }

  /** Both declared identities are the ones derived from the captured state and the handoff. */
  predicate IdentitiesMatch(m: Metadata, h: Hashes) {
    && 0 <= m.handoffSection < |m.sections|
    && m.stateDigest == h.ofState(StateOf(m))
    && m.migrationId == h.ofMigration(m.stateDigest, m.sections[m.handoffSection].digest)
  }

  function MetadataOf(fields: map<string, Json>, sections: seq<Section>): Option<Metadata> {
    var migrationId :- AsText(Field(fields, "migration_id"));
    var commit :- AsText(Field(fields, "commit"));
    var stateDigest :- AsText(Field(fields, "state_digest"));
    var bundle :- AsInt(Field(fields, "bundle_section"));
    var handoff :- AsInt(Field(fields, "handoff_section"));
    var entries := Field(fields, "entries");
    if !entries.Obj? || entries.fields.Keys != FILE_ROLES then None
    else
      var index :- RoleEntries(entries.fields, "index", sections);
      var worktree :- RoleEntries(entries.fields, "worktree", sections);
      var untracked :- RoleEntries(entries.fields, "untracked", sections);
      Some(Metadata(migrationId, commit, AsText(Field(fields, "branch")), stateDigest, bundle, handoff,
                    sections, index, worktree, untracked))
  }

  predicate ValidMetadata(fields: map<string, Json>, m: Metadata, h: Hashes) {
    && ValidShape(fields)
    && (|m.commit| == 40 || |m.commit| == 64) && IsHex(m.commit)
    && ValidBranch(Field(fields, "branch"))
    && |m.migrationId| == 32 && IsHex(m.migrationId)
    && |m.index| + |m.worktree| + |m.untracked| <= MAX_FILE_COUNT
    && References(Some(m.bundleSection), m.sections, "bundle")
    && References(Some(m.handoffSection), m.sections, "handoff")
    && IdentitiesMatch(m, h)
  }

  function ParsePacket(packet: Bytes, decode: Bytes -> Option<Json>, h: Hashes): Option<(Metadata, Bytes)> {
    var parts :- Parts(packet);
    var document :- decode(parts.0);
    if !document.Obj? then None
    else
      var sections :- SectionsOf(Field(document.fields, "sections"), parts.1, h);
      var m :- MetadataOf(document.fields, sections);
      if ValidMetadata(document.fields, m, h) then Some((m, parts.1)) else None
  }

  /** What acceptance guarantees about the section table. */
  ghost predicate ClosedSections(m: Metadata, payload: Bytes, h: Hashes) {
    && Tiles(m.sections, payload, 0)
    && SlicesMatch(m.sections, payload, h)
    && CountRole(m.sections, "bundle") == 1 && CountRole(m.sections, "handoff") == 1
  }

  /** What acceptance guarantees about the entries. */
  ghost predicate ClosedEntries(m: Metadata) {
    && StrictlySorted(m.index) && StrictlySorted(m.worktree) && StrictlySorted(m.untracked)
    && (forall e :: e in m.index ==> EntryFits(e, "index", m.sections))
    && (forall e :: e in m.worktree ==> EntryFits(e, "worktree", m.sections))
    && (forall e :: e in m.untracked ==> EntryFits(e, "untracked", m.sections))
    && |m.index| + |m.worktree| + |m.untracked| <= MAX_FILE_COUNT
  }

  lemma MetadataParts(fields: map<string, Json>, sections: seq<Section>)
    requires MetadataOf(fields, sections).Some?
    ensures var m := MetadataOf(fields, sections).value;
      && m.sections == sections && Field(fields, "entries").Obj?
      && RoleEntries(Field(fields, "entries").fields, "index", sections) == Some(m.index)
      && RoleEntries(Field(fields, "entries").fields, "worktree", sections) == Some(m.worktree)
      && RoleEntries(Field(fields, "entries").fields, "untracked", sections) == Some(m.untracked)
  {
  }

  /**
   Acceptance means an exact envelope whose sections tile the payload, match their digests and give the
   identities.
   */
  lemma AcceptedSectionsAreClosed(packet: Bytes, decode: Bytes -> Option<Json>, h: Hashes)
    requires ParsePacket(packet, decode, h).Some?
    ensures var (m, payload) := ParsePacket(packet, decode, h).value;
      && ClosedSections(m, payload, h) && IdentitiesMatch(m, h)
      && Inside(m.sections, payload) && Concat(m.sections, payload) == payload
      && exists metadata :: 2 <= |metadata| <= MAX_METADATA_BYTES && packet == Envelope(metadata, payload)
  {
    var (m, payload) := ParsePacket(packet, decode, h).value;
    var parts := Parts(packet).value;
    var document := decode(parts.0).value;
    var table := Field(document.fields, "sections");
    EnvelopeRoundTrip(packet, parts.0, payload);
    MetadataParts(document.fields, SectionsOf(table, payload, h).value);
    SectionsMeaning(table.items, payload, 0, h, m.sections);
    SectionsConcatToPayload(m.sections, payload, 0);
  }

  /** Acceptance means sorted entries per role, each live one naming its own section. */
  lemma AcceptedEntriesAreClosed(packet: Bytes, decode: Bytes -> Option<Json>, h: Hashes)
    requires ParsePacket(packet, decode, h).Some?
    ensures ClosedEntries(ParsePacket(packet, decode, h).value.0)
  {
    var (m, payload) := ParsePacket(packet, decode, h).value;
    var fields := decode(Parts(packet).value.0).value.fields;
    MetadataIsClosed(fields, SectionsOf(Field(fields, "sections"), payload, h).value, h);
  }

  lemma MetadataIsClosed(fields: map<string, Json>, sections: seq<Section>, h: Hashes)
    requires MetadataOf(fields, sections).Some? && ValidMetadata(fields, MetadataOf(fields, sections).value, h)
    ensures ClosedEntries(MetadataOf(fields, sections).value)
  {
    var m := MetadataOf(fields, sections).value;
    MetadataParts(fields, sections);
    EntriesAreClosed(Field(fields, "entries").fields, m);
  }

  lemma EntriesAreClosed(entries: map<string, Json>, m: Metadata)
    requires RoleEntries(entries, "index", m.sections) == Some(m.index)
    requires RoleEntries(entries, "worktree", m.sections) == Some(m.worktree)
    requires RoleEntries(entries, "untracked", m.sections) == Some(m.untracked)
    requires |m.index| + |m.worktree| + |m.untracked| <= MAX_FILE_COUNT
    ensures ClosedEntries(m)
  {
    RoleIsClosed(entries, "index", m.sections);
    RoleIsClosed(entries, "worktree", m.sections);
    RoleIsClosed(entries, "untracked", m.sections);
  }

  lemma RoleIsClosed(fields: map<string, Json>, role: string, sections: seq<Section>)
    requires RoleEntries(fields, role, sections).Some?
    ensures var entries := RoleEntries(fields, role, sections).value;
      StrictlySorted(entries) && forall e :: e in entries ==> EntryFits(e, role, sections)
  {
    var items, entries := Field(fields, role).items, RoleEntries(fields, role, sections).value;
    EntriesMeaning(items, role, "", sections, entries);
    forall e | e in entries ensures EntryFits(e, role, sections) {
      var i :| 0 <= i < |entries| && entries[i] == e;
      EntryOfFits(items[i], role, sections);
    }
  }

  // ---- from a packet to the state it restores -----------------------------------------------

  function ModeOf(mode: string): W.Mode {
    if mode == "100755" then W.Executable else if mode == "120000" then W.Link else W.Regular
  }

  function Resolve(e: Entry, m: Metadata, payload: Bytes): W.Entry {
    if !e.deleted && 0 <= e.section < |m.sections|
      && 0 <= m.sections[e.section].offset && m.sections[e.section].offset + m.sections[e.section].length <= |payload|
    then W.Entry(e.path, Some(W.Blob(ModeOf(e.mode), Slice(payload, m.sections[e.section]))))
    else W.Entry(e.path, None)
  }

  function ResolveAll(entries: seq<Entry>, m: Metadata, payload: Bytes): seq<W.Entry> {
    seq(|entries|, i requires 0 <= i < |entries| => Resolve(entries[i], m, payload))
  }

  /** The captured state a validated packet restores. */
  function Captured(m: Metadata, payload: Bytes): W.Packet {
    W.Packet(m.commit, m.branch, ResolveAll(m.index, m, payload), ResolveAll(m.worktree, m, payload),
             ResolveAll(m.untracked, m, payload))
  }

  /** An accepted packet is well formed for reconstruction: distinct paths, no untracked deletion. */
  lemma CapturedIsWellFormed(m: Metadata, payload: Bytes, h: Hashes)
    requires ClosedSections(m, payload, h) && ClosedEntries(m)
    ensures W.WellFormed(Captured(m, payload))
  {
    ResolvedPaths(m.index, m, payload);
    ResolvedPaths(m.worktree, m, payload);
    ResolvedPaths(m.untracked, m, payload);
    var untracked := ResolveAll(m.untracked, m, payload);
    forall e | e in untracked ensures e.change.Some? {
      var i :| 0 <= i < |untracked| && untracked[i] == e;
      assert EntryFits(m.untracked[i], "untracked", m.sections);
      assert SliceMatches(m.sections[m.untracked[i].section], payload, h);
    }
  }

  lemma ResolvedPaths(entries: seq<Entry>, m: Metadata, payload: Bytes)
    requires StrictlySorted(entries)
    ensures W.DistinctPaths(ResolveAll(entries, m, payload))
  {
    forall i, j | 0 <= i < j < |entries| ensures entries[i].path != entries[j].path {
      LexLessTotal(entries[i].path, entries[j].path);
    }
  }

  /** Equal digests mean equal bytes and equal captured states. */
  ghost predicate CollisionFree(h: Hashes) {
    && (forall a, b :: h.ofBytes(a) == h.ofBytes(b) ==> a == b)
    && (forall a, b :: h.ofState(a) == h.ofState(b) ==> a == b)
  }

  /**
   The state digest pins the captured state: two accepted packets with the same digest restore the
   same commit, branch, paths, modes and contents, however their section tables differ.
   */
  lemma StateDigestPinsTheCapture(a: Metadata, payloadA: Bytes, b: Metadata, payloadB: Bytes, h: Hashes)
    requires CollisionFree(h)
    requires ClosedSections(a, payloadA, h) && ClosedEntries(a) && IdentitiesMatch(a, h)
    requires ClosedSections(b, payloadB, h) && ClosedEntries(b) && IdentitiesMatch(b, h)
    requires a.stateDigest == b.stateDigest
    ensures Captured(a, payloadA) == Captured(b, payloadB)
  {
    assert StateOf(a) == StateOf(b);
    IdentitiesPin(a.index, a, payloadA, b.index, b, payloadB, "index", h);
    IdentitiesPin(a.worktree, a, payloadA, b.worktree, b, payloadB, "worktree", h);
    IdentitiesPin(a.untracked, a, payloadA, b.untracked, b, payloadB, "untracked", h);
  }

  lemma IdentitiesPin(ea: seq<Entry>, a: Metadata, payloadA: Bytes, eb: seq<Entry>, b: Metadata, payloadB: Bytes,
                      role: string, h: Hashes)
    requires CollisionFree(h) && SlicesMatch(a.sections, payloadA, h) && SlicesMatch(b.sections, payloadB, h)
    requires forall e :: e in ea ==> EntryFits(e, role, a.sections)
    requires forall e :: e in eb ==> EntryFits(e, role, b.sections)
    requires Identities(ea, a.sections) == Identities(eb, b.sections)
    ensures ResolveAll(ea, a, payloadA) == ResolveAll(eb, b, payloadB)
  {
    assert |ea| == |Identities(ea, a.sections)| == |eb|;
    forall i | 0 <= i < |ea| ensures Resolve(ea[i], a, payloadA) == Resolve(eb[i], b, payloadB) {
      assert Identities(ea, a.sections)[i] == Identities(eb, b.sections)[i];
      assert IdentityOf(ea[i], a.sections) == IdentityOf(eb[i], b.sections);
      assert EntryFits(ea[i], role, a.sections) && EntryFits(eb[i], role, b.sections);
      if !ea[i].deleted {
        var sa, sb := a.sections[ea[i].section], b.sections[eb[i].section];
        assert SliceMatches(sa, payloadA, h) && SliceMatches(sb, payloadB, h);
        assert h.ofBytes(Slice(payloadA, sa)) == h.ofBytes(Slice(payloadB, sb));
      }
    }
  }
}
