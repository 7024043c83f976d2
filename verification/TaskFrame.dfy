/**
 From a repository's environment declaration to the guest's task environment: validation
 (tools/incus_sandbox/repository_environment.py), resolution and framing on the host
 (task_environment.py), and decoding in the guest (task_launcher.py).
 */
module TaskFrame {
  import opened Base64
  import opened Values
  import opened Wrappers

  const MAX_FRAME_BYTES := 64 * 1024
  const MAX_DOCUMENT_BYTES := 64 * 1024
  const MAX_VARIABLES := 128
  const MAX_VALUE_BYTES := 16 * 1024
  const DECLARATION_SCHEMA := "gc.incus-sandbox.task-environment/v1"
  const FRAME_SCHEMA := "gc.incus-sandbox.task-frame/v1"

  /** The JSON and UTF-8 libraries both sides use. */
  datatype Codec = Codec(loads: Bytes -> Option<Json>, dumps: Json -> Bytes,
                         encode: string -> Bytes, decode: Bytes -> Option<string>)

  /** What the libraries promise: reading undoes writing, and only the NUL character encodes to a zero byte. */
  ghost predicate Faithful(c: Codec) {
    && (forall j :: c.dumps(j) != [] && c.loads(c.dumps(j)) == Some(j))
    && (forall t :: c.decode(c.encode(t)) == Some(t))
    && (forall t :: 0 in c.encode(t) <==> '\0' in t)
  }

  // ---- names ----------------------------------------------------------------------------

  const RESERVED := {
    "PATH", "HOME", "SHELL", "USER", "LOGNAME", "TERM", "TMPDIR", "PWD", "OLDPWD",
    "DOCKER_HOST", "GITHUB_TOKEN", "GH_TOKEN", "GIT_ASKPASS", "SSH_AUTH_SOCK"
  }

  const RESERVED_PREFIXES := [
    "LD_", "DYLD_", "GIT_", "SSH_", "PYTHON", "NODE_OPTIONS", "NPM_CONFIG_",
    "BASH_ENV", "ENV", "CDPATH", "CODEX_", "OPENAI_", "GROUND_CONTROL_", "GC_"
  ]

  predicate IsNameStart(c: char) {
    'A' <= c <= 'Z' || c == '_'
  }

  predicate ValidName(s: string) {
    && 0 < |s| <= 64 && IsNameStart(s[0]) && (forall i :: 1 <= i < |s| ==> IsNameStart(s[i]) || '0' <= s[i] <= '9')
    && s !in RESERVED && forall p :: p in RESERVED_PREFIXES ==> !(p <= s)
  }

  predicate ValidAlias(s: string) {
    && 0 < |s| <= 64 && 'a' <= s[0] <= 'z'
    && forall i :: 1 <= i < |s| ==> 'a' <= s[i] <= 'z' || '0' <= s[i] <= '9' || s[i] == '-'
  }

  predicate IsRepositoryPart(s: string) {
    0 < |s| <= 100 && forall i :: 0 <= i < |s| ==> 'a' <= s[i] <= 'z' || '0' <= s[i] <= '9' || s[i] in "_.-"
  }

  predicate IsRepository(s: string) {
    exists i :: 0 <= i < |s| && s[i] == '/' && IsRepositoryPart(s[..i]) && IsRepositoryPart(s[i + 1..])
  }

  predicate IsTaskId(s: string) {
    |s| == 32 && forall i :: 0 <= i < 32 ==> '0' <= s[i] <= '9' || 'a' <= s[i] <= 'f'
  }

  // ---- the declaration ----------------------------------------------------------------------

  datatype Source = Literal(text: string) | Secret(alias: string)

  datatype Declared = Declared(name: string, source: Source)

  function DeclarationOf(raw: Json, maxValue: nat, c: Codec): Option<Declared> {
    if !raw.Obj? then None
    else if raw.fields.Keys != {"name", "literal"} && raw.fields.Keys != {"name", "secret_ref"} then None
    else
      var name :- AsText(raw.fields["name"]);
      if !ValidName(name) then None
      else if "literal" in raw.fields then
        var literal :- AsText(raw.fields["literal"]);
        if '\0' in literal || |c.encode(literal)| > maxValue then None else Some(Declared(name, Literal(literal)))
      else
        var alias :- AsText(raw.fields["secret_ref"]);
        if ValidAlias(alias) then Some(Declared(name, Secret(alias))) else None
  }

  function DeclarationsOf(raws: seq<Json>, maxValue: nat, c: Codec): Option<seq<Declared>> {
    if raws == [] then Some([])
    else
      var first :- DeclarationOf(raws[0], maxValue, c);
      var rest :- DeclarationsOf(raws[1..], maxValue, c);
      Some([first] + rest)
  }

  predicate NamesDiffer(vars: seq<Declared>) {
    forall i, j {:trigger vars[i], vars[j]} :: 0 <= i < j < |vars| ==> vars[i].name != vars[j].name
  }

  predicate SourcesDiffer(vars: seq<Declared>) {
    forall i, j {:trigger vars[i], vars[j]} ::
      0 <= i < j < |vars| && vars[i].source.Secret? ==> vars[i].source != vars[j].source
  }

  function ParseDeclaration(raw: Bytes, repository: string, maxValue: nat, c: Codec): Option<seq<Declared>> {
    if raw == [] || |raw| > MAX_DOCUMENT_BYTES then None
    else
      var document :- c.loads(raw);
      if !document.Obj? || document.fields.Keys != {"schema", "repository", "variables"} then None
      else if document.fields["schema"] != Str(DECLARATION_SCHEMA) then None
      else if !IsRepository(repository) || document.fields["repository"] != Str(repository) then None
      else if !document.fields["variables"].Arr? || |document.fields["variables"].items| > MAX_VARIABLES then None
      else
        var vars :- DeclarationsOf(document.fields["variables"].items, maxValue, c);
        if NamesDiffer(vars) && SourcesDiffer(vars) then Some(vars) else None
  }

  // ---- resolution and framing on the host -----------------------------------------------------

  /** One provider file of the repository's policy. `trusted` stands for regular, root-owned and private. */
  datatype ProviderFile = ProviderFile(available: bool, absolute: bool, trusted: bool, content: Bytes)

  function ProviderValue(providers: map<string, ProviderFile>, alias: string, maxValue: nat, c: Codec): Option<Bytes> {
    if alias !in providers then None
    else
      var file := providers[alias];
      if !file.available || !file.absolute || !file.trusted then None
      else if file.content == [] || |file.content| > maxValue || 0 in file.content then None
      else if c.decode(file.content).None? then None
      else Some(file.content)
  }

  function ValueOf(d: Declared, providers: map<string, ProviderFile>, maxValue: nat, c: Codec): Option<Bytes> {
    match d.source
    case Literal(text) => Some(c.encode(text))
    case Secret(alias) => ProviderValue(providers, alias, maxValue, c)
  }

  function ValuesOf(vars: seq<Declared>, providers: map<string, ProviderFile>, maxValue: nat,
                    c: Codec): (r: Option<seq<Bytes>>)
    ensures r.Some? ==> |r.value| == |vars|
    ensures r.Some? ==> forall i :: 0 <= i < |vars| ==> ValueOf(vars[i], providers, maxValue, c) == Some(r.value[i])
  {
    if vars == [] then Some([])
    else
      var first :- ValueOf(vars[0], providers, maxValue, c);
      var rest :- ValuesOf(vars[1..], providers, maxValue, c);
      Some([first] + rest)
  }

  function ItemFor(d: Declared, value: Bytes): Json {
    Obj(map["name" := Str(d.name), "value_b64" := Str(Encode(value))])
  }

  function ItemsFor(vars: seq<Declared>, values: seq<Bytes>): (r: seq<Json>)
    requires |vars| == |values|
    ensures |r| == |vars| && forall i :: 0 <= i < |r| ==> r[i] == ItemFor(vars[i], values[i])
  {
    seq(|vars|, i requires 0 <= i < |vars| => ItemFor(vars[i], values[i]))
  }

  /** The task status keeps names and sources only, never a value. */
  datatype Redacted = Redacted(name: string, isLiteral: bool)

  method Resolve(vars: seq<Declared>, providers: map<string, ProviderFile>, maxValue: nat, c: Codec)
    returns (r: Option<(seq<Json>, seq<Redacted>)>)
    ensures r.Some? <==> ValuesOf(vars, providers, maxValue, c).Some?
    ensures r.Some? ==>
      && r.value.0 == ItemsFor(vars, ValuesOf(vars, providers, maxValue, c).value)
      && |r.value.1| == |vars|
      && forall i :: 0 <= i < |vars| ==> r.value.1[i] == Redacted(vars[i].name, vars[i].source.Literal?)
  {
    var frame: seq<Json>, redacted: seq<Redacted> := [], [];
    ghost var values: seq<Bytes> := [];
    for i := 0 to |vars|
      invariant |frame| == |redacted| == |values| == i
      invariant forall k :: 0 <= k < i ==> ValueOf(vars[k], providers, maxValue, c) == Some(values[k])
      invariant forall k :: 0 <= k < i ==> frame[k] == ItemFor(vars[k], values[k])
      invariant forall k :: 0 <= k < i ==> redacted[k] == Redacted(vars[k].name, vars[k].source.Literal?)
    {
      var value := ValueOf(vars[i], providers, maxValue, c);
      if value.None? {
        return None;
      }
      values := values + [value.value];
      frame := frame + [ItemFor(vars[i], value.value)];
      redacted := redacted + [Redacted(vars[i].name, vars[i].source.Literal?)];
    }
    ResolvedValues(vars, providers, maxValue, c, values);
    r := Some((frame, redacted));
  }

  lemma {:induction false} ResolvedValues(vars: seq<Declared>, providers: map<string, ProviderFile>, maxValue: nat,
                                          c: Codec,
                                          values: seq<Bytes>)
    requires |values| == |vars|
    requires forall k :: 0 <= k < |vars| ==> ValueOf(vars[k], providers, maxValue, c) == Some(values[k])
    ensures ValuesOf(vars, providers, maxValue, c) == Some(values)
  {
    if vars != [] {
      ResolvedValues(vars[1..], providers, maxValue, c, values[1..]);
      assert [values[0]] + values[1..] == values;
    }
  }

  function FrameJson(taskId: string, items: seq<Json>): Json {
    Obj(map["schema" := Str(FRAME_SCHEMA), "task_id" := Str(taskId), "variables" := Arr(items)])
  }

  /** The frame the host delivers, if every value resolves and the whole stays within the delivery limit. */
  function HostFrame(vars: seq<Declared>, providers: map<string, ProviderFile>, maxValue: nat, taskId: string,
                     c: Codec): Option<Bytes> {
    var values :- ValuesOf(vars, providers, maxValue, c);
    var raw := c.dumps(FrameJson(taskId, ItemsFor(vars, values)));
    if IsTaskId(taskId) && |raw| <= MAX_FRAME_BYTES then Some(raw) else None
  }

  // ---- decoding in the guest ---------------------------------------------------------------------

  function FrameItems(raw: Bytes, c: Codec): Option<seq<Json>> {
    if raw == [] || |raw| > MAX_FRAME_BYTES then None
    else
      var frame :- c.loads(raw);
      if !frame.Obj? || frame.fields.Keys != {"schema", "task_id", "variables"} then None
      else if frame.fields["schema"] != Str(FRAME_SCHEMA) then None
      else if !frame.fields["task_id"].Str? || !IsTaskId(frame.fields["task_id"].text) then None
      else if !frame.fields["variables"].Arr? || |frame.fields["variables"].items| > MAX_VARIABLES then None
      else Some(frame.fields["variables"].items)
  }

  function VariableOf(item: Json, names: set<string>, c: Codec): Option<(string, string)> {
    if !item.Obj? || item.fields.Keys != {"name", "value_b64"} then None
    else
      var name :- AsText(item.fields["name"]);
      if !ValidName(name) || name in names then None
      else
        var encoded :- AsText(item.fields["value_b64"]);
        var value :- Decode(encoded);
        var decoded :- c.decode(value);
        if |value| > MAX_VALUE_BYTES || 0 in value then None else Some((name, decoded))
  }

  /** The environment after the remaining items. */
  function Fill(items: seq<Json>, environment: map<string, string>, names: set<string>,
                c: Codec): Option<map<string, string>>
    decreases |items|
  {
    if items == [] then Some(environment)
    else
      var variable :- VariableOf(items[0], names, c);
      Fill(items[1..], environment[variable.0 := variable.1], names + {variable.0}, c)
  }

  /** What every task gets, with the terminal type when it is usable. */
  function Fixed(term: Option<string>): map<string, string> {
    var base := map["PATH" := "/usr/local/bin:/usr/bin:/bin", "HOME" := "/run/gc-sandbox-task", "SHELL" := "/bin/bash"];
    if term.Some? && 0 < |term.value| <= 64 && '\0' !in term.value then base["TERM" := term.value] else base
  }

  function GuestEnvironment(raw: Bytes, term: Option<string>, c: Codec): Option<map<string, string>> {
    var items :- FrameItems(raw, c);
    Fill(items, Fixed(term), {}, c)
  }

  method EnvironmentFromFrame(raw: Bytes, term: Option<string>, c: Codec) returns (r: Option<map<string, string>>)
    ensures r == GuestEnvironment(raw, term, c)
  {
    var items := FrameItems(raw, c);
    if items.None? {
      return None;
    }
    var environment := Fixed(term);
    var names: set<string> := {};
    var i := 0;
    assert items.value[0..] == items.value;
    while i < |items.value|
      invariant 0 <= i <= |items.value|
      invariant Fill(items.value, Fixed(term), {}, c) == Fill(items.value[i..], environment, names, c)
    {
      assert items.value[i..][1..] == items.value[i + 1..];
      var variable := VariableOf(items.value[i], names, c);
      if variable.None? {
        return None;
      }
      environment := environment[variable.value.0 := variable.value.1];
      names := names + {variable.value.0};
      i := i + 1;
    }
    r := Some(environment);
  }

  // ---- what an accepted declaration guarantees -------------------------------------------------------

  /** The fixed names are reserved, so no accepted declaration can name them. */
  lemma FixedNamesAreReserved(name: string, term: Option<string>)
    requires ValidName(name)
    ensures name !in Fixed(term)
  {
  }

  ghost predicate Usable(d: Declared, c: Codec) {
    ValidName(d.name) && (d.source.Literal? ==> '\0' !in d.source.text)
  }

  lemma {:induction false} AcceptedAreUsable(raws: seq<Json>, maxValue: nat, c: Codec)
    requires DeclarationsOf(raws, maxValue, c).Some?
    ensures var vars := DeclarationsOf(raws, maxValue, c).value;
      && |vars| == |raws|
      && forall d :: d in vars ==>
           Usable(d, c) && (d.source.Literal? ==> |c.encode(d.source.text)| <= maxValue)
  {
    if raws != [] {
      AcceptedAreUsable(raws[1..], maxValue, c);
    }
  }

  /** A resolved value decodes to text, holds no zero byte, and stays within the host's bound. */
  lemma ResolvedIsDecodable(d: Declared, providers: map<string, ProviderFile>, maxValue: nat, c: Codec)
    requires Faithful(c) && Usable(d, c) && ValueOf(d, providers, maxValue, c).Some?
    ensures var value := ValueOf(d, providers, maxValue, c).value;
      && c.decode(value).Some? && 0 !in value
      && (d.source.Literal? ==> c.decode(value) == Some(d.source.text))
      && (d.source.Secret? ==> 0 < |value| <= maxValue)
  {
  }

  // ---- the round trip -----------------------------------------------------------------------------------

  ghost predicate Decodable(values: seq<Bytes>, c: Codec) {
    forall v :: v in values ==> c.decode(v).Some? && 0 !in v
  }

  ghost predicate WithinGuestBound(values: seq<Bytes>) {
    forall v :: v in values ==> |v| <= MAX_VALUE_BYTES
  }

  lemma ItemIsAcceptedIffShort(d: Declared, value: Bytes, names: set<string>, c: Codec)
    requires ValidName(d.name) && d.name !in names
    requires c.decode(value).Some? && 0 !in value
    ensures VariableOf(ItemFor(d, value), names, c)
      == if |value| <= MAX_VALUE_BYTES then Some((d.name, c.decode(value).value)) else None
  {
    DecodeUndoesEncode(value);
    assert ItemFor(d, value).fields.Keys == {"name", "value_b64"};
  }

  /** `r` is the environment plus exactly the declared names with their decoded values. */
  ghost predicate Filled(vars: seq<Declared>, values: seq<Bytes>, environment: map<string, string>,
                         r: map<string, string>, c: Codec)
    requires |vars| == |values|
  {
    && (forall i :: 0 <= i < |vars| ==> vars[i].name in r && c.decode(values[i]) == Some(r[vars[i].name]))
    && (forall name :: !Names(vars, name) ==>
          (name in r <==> name in environment) && (name in environment ==> r[name] == environment[name]))
  }

  predicate Names(vars: seq<Declared>, name: string) {
    exists d :: d in vars && d.name == name
  }

  lemma FilledByOneMore(vars: seq<Declared>, values: seq<Bytes>, environment: map<string, string>, text: string,
                        r: map<string, string>, c: Codec)
    requires |vars| == |values| && vars != [] && NamesDiffer(vars)
    requires c.decode(values[0]) == Some(text)
    requires Filled(vars[1..], values[1..], environment[vars[0].name := text], r, c)
    ensures Filled(vars, values, environment, r, c)
  {
    NamesStayDifferent(vars);
    assert !Names(vars[1..], vars[0].name);
    forall i | 0 <= i < |vars| ensures vars[i].name in r && c.decode(values[i]) == Some(r[vars[i].name]) {
      if i > 0 {
        assert vars[i] == vars[1..][i - 1] && values[i] == values[1..][i - 1];
      }
    }
    forall name | !Names(vars, name)
      ensures (name in r <==> name in environment) && (name in environment ==> r[name] == environment[name])
    {
      assert vars[0] in vars && (forall d :: d in vars[1..] ==> d in vars);
      assert !Names(vars[1..], name) && name != vars[0].name;
    }
  }

  lemma BoundOfAll(values: seq<Bytes>)
    requires values != []
    ensures WithinGuestBound(values) <==> |values[0]| <= MAX_VALUE_BYTES && WithinGuestBound(values[1..])
  {
    assert forall w :: w in values <==> w == values[0] || w in values[1..];
  }

  ghost predicate FillsIffShort(vars: seq<Declared>, values: seq<Bytes>, environment: map<string, string>,
                                r: Option<map<string, string>>, c: Codec)
    requires |vars| == |values|
  {
    (r.Some? <==> WithinGuestBound(values)) && (r.Some? ==> Filled(vars, values, environment, r.value, c))
  }

  lemma FillStep(vars: seq<Declared>, values: seq<Bytes>, environment: map<string, string>, names: set<string>,
                 c: Codec)
    requires |vars| == |values| && vars != []
    requires ValidName(vars[0].name) && vars[0].name !in names && c.decode(values[0]).Some? && 0 !in values[0]
    ensures Fill(ItemsFor(vars, values), environment, names, c)
      == if |values[0]| > MAX_VALUE_BYTES then None
         else Fill(ItemsFor(vars[1..], values[1..]), environment[vars[0].name := c.decode(values[0]).value],
                   names + {vars[0].name}, c)
  {
    var items := ItemsFor(vars, values);
    ItemIsAcceptedIffShort(vars[0], values[0], names, c);
    assert items[0] == ItemFor(vars[0], values[0]);
    assert items[1..] == ItemsFor(vars[1..], values[1..]);
  }

  lemma NothingToFill(environment: map<string, string>, names: set<string>, c: Codec)
    ensures FillsIffShort([], [], environment, Fill(ItemsFor([], []), environment, names, c), c)
  {
  }

  lemma FillMore(vars: seq<Declared>, values: seq<Bytes>, environment: map<string, string>,
                 r: Option<map<string, string>>, c: Codec)
    requires |vars| == |values| && vars != [] && NamesDiffer(vars)
    requires |values[0]| <= MAX_VALUE_BYTES && c.decode(values[0]).Some?
    requires FillsIffShort(vars[1..], values[1..], environment[vars[0].name := c.decode(values[0]).value], r, c)
    ensures FillsIffShort(vars, values, environment, r, c)
  {
    BoundOfAll(values);
    if r.Some? {
      FilledByOneMore(vars, values, environment, c.decode(values[0]).value, r.value, c);
    }
  }

  /** Filling adds exactly the declared names with their decoded values, and is refused by an oversized one alone. */
  lemma {:induction false} FillMeaning(vars: seq<Declared>, values: seq<Bytes>, environment: map<string, string>,
                                       names: set<string>, c: Codec)
    requires |vars| == |values| && NamesDiffer(vars) && Decodable(values, c)
    requires forall d :: d in vars ==> ValidName(d.name) && d.name !in names
    ensures FillsIffShort(vars, values, environment, Fill(ItemsFor(vars, values), environment, names, c), c)
    decreases |vars|
  {
    if vars == [] {
      NothingToFill(environment, names, c);
    } else {
      assert vars[0] in vars && values[0] in values;
      FillStep(vars, values, environment, names, c);
      if |values[0]| <= MAX_VALUE_BYTES {
        var next := environment[vars[0].name := c.decode(values[0]).value];
        NamesStayDifferent(vars);
        FillMeaning(vars[1..], values[1..], next, names + {vars[0].name}, c);
        FillMore(vars, values, environment, Fill(ItemsFor(vars, values), environment, names, c), c);
      }
    }
  }

  lemma NamesStayDifferent(vars: seq<Declared>)
    requires vars != [] && NamesDiffer(vars)
    ensures NamesDiffer(vars[1..]) && forall d :: d in vars[1..] ==> d.name != vars[0].name
  {
  }

  /** The guest opens a delivered frame to exactly the items the host put in. */
  lemma FrameOpens(vars: seq<Declared>, values: seq<Bytes>, taskId: string, c: Codec)
    requires Faithful(c) && IsTaskId(taskId) && |vars| == |values| && |vars| <= MAX_VARIABLES
    requires |c.dumps(FrameJson(taskId, ItemsFor(vars, values)))| <= MAX_FRAME_BYTES
    ensures FrameItems(c.dumps(FrameJson(taskId, ItemsFor(vars, values))), c) == Some(ItemsFor(vars, values))
  {
    var frame := FrameJson(taskId, ItemsFor(vars, values));
    assert frame.fields.Keys == {"schema", "task_id", "variables"};
  }

  lemma ParsedMeaning(raw: Bytes, repository: string, maxValue: nat, c: Codec)
    requires ParseDeclaration(raw, repository, maxValue, c).Some?
    ensures var vars := ParseDeclaration(raw, repository, maxValue, c).value;
      && |vars| <= MAX_VARIABLES && NamesDiffer(vars)
      && forall d :: d in vars ==> Usable(d, c) && (d.source.Literal? ==> |c.encode(d.source.text)| <= maxValue)
  {
    AcceptedAreUsable(c.loads(raw).value.fields["variables"].items, maxValue, c);
  }

  /** Resolved values of an accepted declaration decode to the declared text. */
  lemma ResolvedMeaning(vars: seq<Declared>, providers: map<string, ProviderFile>, maxValue: nat, c: Codec)
    requires Faithful(c) && ValuesOf(vars, providers, maxValue, c).Some?
    requires forall d :: d in vars ==> Usable(d, c)
    ensures var values := ValuesOf(vars, providers, maxValue, c).value;
      && Decodable(values, c)
      && forall i :: 0 <= i < |vars| && vars[i].source.Literal? ==> c.decode(values[i]) == Some(vars[i].source.text)
  {
    var values := ValuesOf(vars, providers, maxValue, c).value;
    forall v | v in values ensures c.decode(v).Some? && 0 !in v {
      var i :| 0 <= i < |values| && values[i] == v;
      ResolvedIsDecodable(vars[i], providers, maxValue, c);
    }
    forall i | 0 <= i < |vars| && vars[i].source.Literal? ensures c.decode(values[i]) == Some(vars[i].source.text) {
      ResolvedIsDecodable(vars[i], providers, maxValue, c);
    }
  }

  /** What the guest's environment holds: the fixed variables, and the declared names with these values. */
  ghost predicate ExactlyDeclared(vars: seq<Declared>, values: seq<Bytes>, term: Option<string>,
                                  r: map<string, string>, c: Codec)
    requires |vars| == |values|
  {
    && (forall i :: 0 <= i < |vars| ==> vars[i].name in r && c.decode(values[i]) == Some(r[vars[i].name]))
    && (forall i :: 0 <= i < |vars| && vars[i].source.Literal? ==> r[vars[i].name] == vars[i].source.text)
    && (forall name :: name in Fixed(term) ==> name in r && r[name] == Fixed(term)[name])
    && (forall name :: name in r ==> name in Fixed(term) || Names(vars, name))
  }

  lemma FilledIsExact(vars: seq<Declared>, values: seq<Bytes>, term: Option<string>, r: map<string, string>, c: Codec)
    requires |vars| == |values| && Filled(vars, values, Fixed(term), r, c)
    requires forall d :: d in vars ==> ValidName(d.name)
    requires forall i :: 0 <= i < |vars| && vars[i].source.Literal? ==> c.decode(values[i]) == Some(vars[i].source.text)
    ensures ExactlyDeclared(vars, values, term, r, c)
  {
    forall d | d in vars ensures d.name !in Fixed(term) {
      FixedNamesAreReserved(d.name, term);
    }
    forall name | name in Fixed(term) ensures name in r && r[name] == Fixed(term)[name] {
      assert !Names(vars, name);
    }
  }

  /**
   The frame round trip: for every declaration the host accepts, resolves and delivers, the guest
   accepts the frame if and only if no value exceeds its own bound. It then gets the fixed variables
   unchanged and, beside them, exactly the declared names with exactly the declared or provided bytes.
   */
  lemma GuestGetsTheDeclaredEnvironment(raw: Bytes, repository: string, providers: map<string, ProviderFile>,
                                        maxValue: nat,
                                        taskId: string, term: Option<string>, c: Codec)
    requires Faithful(c)
    requires ParseDeclaration(raw, repository, maxValue, c).Some?
    requires HostFrame(ParseDeclaration(raw, repository, maxValue, c).value, providers, maxValue, taskId, c).Some?
    ensures var vars := ParseDeclaration(raw, repository, maxValue, c).value;
      var values := ValuesOf(vars, providers, maxValue, c).value;
      var r := GuestEnvironment(HostFrame(vars, providers, maxValue, taskId, c).value, term, c);
      && (r.Some? <==> WithinGuestBound(values))
      && (r.Some? ==> ExactlyDeclared(vars, values, term, r.value, c))
  {
    ParsedMeaning(raw, repository, maxValue, c);
    DeliveredMeaning(ParseDeclaration(raw, repository, maxValue, c).value, providers, maxValue, taskId, term, c);
  }

  lemma DeliveredMeaning(vars: seq<Declared>, providers: map<string, ProviderFile>, maxValue: nat, taskId: string,
                         term: Option<string>, c: Codec)
    requires Faithful(c) && |vars| <= MAX_VARIABLES && NamesDiffer(vars)
    requires forall d :: d in vars ==> Usable(d, c)
    requires HostFrame(vars, providers, maxValue, taskId, c).Some?
    ensures var values := ValuesOf(vars, providers, maxValue, c).value;
      var r := GuestEnvironment(HostFrame(vars, providers, maxValue, taskId, c).value, term, c);
      && (r.Some? <==> WithinGuestBound(values))
      && (r.Some? ==> ExactlyDeclared(vars, values, term, r.value, c))
  {
    var values := ValuesOf(vars, providers, maxValue, c).value;
    FrameOpens(vars, values, taskId, c);
    ResolvedMeaning(vars, providers, maxValue, c);
    FillMeaning(vars, values, Fixed(term), {}, c);
    var r := Fill(ItemsFor(vars, values), Fixed(term), {}, c);
    if r.Some? {
      FilledIsExact(vars, values, term, r.value, c);
    }
  }

  /** The configured bound never exceeds the guest's, so a delivered frame is always accepted. */
  lemma DeliveredFrameIsAccepted(raw: Bytes, repository: string, providers: map<string, ProviderFile>, maxValue: nat,
                                 taskId: string, term: Option<string>, c: Codec)
    requires Faithful(c) && maxValue <= MAX_VALUE_BYTES
    requires ParseDeclaration(raw, repository, maxValue, c).Some?
    requires HostFrame(ParseDeclaration(raw, repository, maxValue, c).value, providers, maxValue, taskId, c).Some?
    ensures GuestEnvironment(
      HostFrame(ParseDeclaration(raw, repository, maxValue, c).value,
                providers, maxValue, taskId, c).value, term, c).Some?
  {
    var vars := ParseDeclaration(raw, repository, maxValue, c).value;
    var values := ValuesOf(vars, providers, maxValue, c).value;
    ParsedMeaning(raw, repository, maxValue, c);
    forall v | v in values ensures |v| <= MAX_VALUE_BYTES {
      var i :| 0 <= i < |values| && values[i] == v;
      ResolvedIsDecodable(vars[i], providers, maxValue, c);
      assert vars[i] in vars;
    }
    GuestGetsTheDeclaredEnvironment(raw, repository, providers, maxValue, taskId, term, c);
  }
}
