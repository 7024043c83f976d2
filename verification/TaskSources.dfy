/**
 Where a task's variables come from (tools/incus_sandbox/repository_environment.py, task_environment.py,
 task_launcher.py): from the fields of the declaration and the provider files to the guest's values.
 */
module TaskSources {
  import opened Wrappers
  import opened Values
  import opened Base64
  import opened TaskFrame

  // ---- the declaration, by its fields --------------------------------------------------------

  ghost predicate DeclaresVariable(item: Json, d: Declared) {
    && item.Obj? && Field(item.fields, "name") == Str(d.name)
    && match d.source
       case Literal(text) => item.fields.Keys == {"name", "literal"} && Field(item.fields, "literal") == Str(text)
       case Secret(alias) =>
         item.fields.Keys == {"name", "secret_ref"} && Field(item.fields, "secret_ref") == Str(alias)
  }

  /** What one variable must satisfy by itself. */
  predicate IsProper(d: Declared, maxValue: nat, c: Codec) {
    && ValidName(d.name)
    && match d.source
       case Literal(text) => '\0' !in text && |c.encode(text)| <= maxValue
       case Secret(alias) => ValidAlias(alias)
  }

  lemma VariableIsDeclared(item: Json, maxValue: nat, c: Codec, d: Declared)
    ensures DeclarationOf(item, maxValue, c) == Some(d) <==> DeclaresVariable(item, d) && IsProper(d, maxValue, c)
  {
    if item.Obj? && DeclaresVariable(item, d) {
      assert "literal" in {"name", "literal"} && "literal" !in {"name", "secret_ref"};
      assert item.fields.Keys == {"name", "literal"} ==> "literal" in item.fields.Keys;
      assert item.fields.Keys == {"name", "secret_ref"} ==> "secret_ref" in item.fields.Keys;
      assert "name" in item.fields.Keys;
    }
  }

  ghost predicate DeclaresVariables(items: seq<Json>, vars: seq<Declared>, maxValue: nat, c: Codec) {
    && |items| == |vars|
    && forall i :: 0 <= i < |vars| ==> DeclaresVariable(items[i], vars[i]) && IsProper(vars[i], maxValue, c)
  }

  lemma {:induction false} VariablesAreDeclared(items: seq<Json>, maxValue: nat, c: Codec, vars: seq<Declared>)
    ensures DeclarationsOf(items, maxValue, c) == Some(vars) <==> DeclaresVariables(items, vars, maxValue, c)
  {
    if items != [] && vars != [] {
      VariableIsDeclared(items[0], maxValue, c, vars[0]);
      VariablesAreDeclared(items[1..], maxValue, c, vars[1..]);
      FirstAndRest(items, maxValue, c, vars);
      DeclaredTail(items, vars, maxValue, c);
    }
  }

  lemma FirstAndRest(items: seq<Json>, maxValue: nat, c: Codec, vars: seq<Declared>)
    requires items != [] && vars != []
    ensures DeclarationsOf(items, maxValue, c) == Some(vars)
      <==> DeclarationOf(items[0], maxValue, c) == Some(vars[0])
           && DeclarationsOf(items[1..], maxValue, c) == Some(vars[1..])
  {
    assert vars == [vars[0]] + vars[1..];
    if DeclarationOf(items[0], maxValue, c).Some? && DeclarationsOf(items[1..], maxValue, c).Some? {
      var first, rest := DeclarationOf(items[0], maxValue, c).value, DeclarationsOf(items[1..], maxValue, c).value;
      assert ([first] + rest)[1..] == rest;
    }
  }

  lemma DeclaredTail(items: seq<Json>, vars: seq<Declared>, maxValue: nat, c: Codec)
    requires items != [] && vars != []
    ensures DeclaresVariables(items, vars, maxValue, c) <==>
      && DeclaresVariable(items[0], vars[0]) && IsProper(vars[0], maxValue, c)
      && DeclaresVariables(items[1..], vars[1..], maxValue, c)
  {
    if DeclaresVariable(items[0], vars[0]) && IsProper(vars[0], maxValue, c)
      && DeclaresVariables(items[1..], vars[1..], maxValue, c) {
      forall i | 0 <= i < |vars| ensures DeclaresVariable(items[i], vars[i]) && IsProper(vars[i], maxValue, c) {
        if i > 0 {
          assert items[i] == items[1..][i - 1] && vars[i] == vars[1..][i - 1];
        }
      }
    }
  }

  /** The document by its fields. */
  ghost predicate IsDeclarationOf(document: Json, repository: string, vars: seq<Declared>, maxValue: nat, c: Codec) {
    && document.Obj? && document.fields.Keys == {"schema", "repository", "variables"}
    && Field(document.fields, "schema") == Str("gc.incus-sandbox.task-environment/v1")
    && Field(document.fields, "repository") == Str(repository) && IsRepository(repository)
    && Field(document.fields, "variables").Arr?
    && DeclaresVariables(Field(document.fields, "variables").items, vars, maxValue, c)
  }

  /**
   A declaration is accepted, with these variables, if and only if it is a bounded document of this
   repository whose items declare exactly them, at most 128, with different names and different aliases.
   */
  lemma ParsedIffDeclared(raw: Bytes, repository: string, maxValue: nat, c: Codec, vars: seq<Declared>)
    ensures ParseDeclaration(raw, repository, maxValue, c) == Some(vars) <==>
      && 0 < |raw| <= 64 * 1024 && c.loads(raw).Some?
      && IsDeclarationOf(c.loads(raw).value, repository, vars, maxValue, c)
      && |vars| <= 128 && NamesDiffer(vars) && SourcesDiffer(vars)
  {
    if c.loads(raw).Some? && c.loads(raw).value.Obj?
      && c.loads(raw).value.fields.Keys == {"schema", "repository", "variables"} {
      var fields := c.loads(raw).value.fields;
      assert "schema" in fields.Keys && "repository" in fields.Keys && "variables" in fields.Keys;
      if fields["variables"].Arr? {
        VariablesAreDeclared(fields["variables"].items, maxValue, c, vars);
      }
    }
  }

  /** No accepted name begins like one that steers the loader, an interpreter, Git or the agent. */
  lemma AuthorityNamesAreRefused(prefix: string, tail: string)
    requires prefix in [
      "LD_", "DYLD_", "GIT_", "SSH_", "PYTHON", "NODE_OPTIONS", "NPM_CONFIG_",
      "BASH_ENV", "ENV", "CDPATH", "CODEX_", "OPENAI_", "GROUND_CONTROL_", "GC_"]
    ensures !ValidName(prefix + tail)
  {
    assert prefix in RESERVED_PREFIXES;
    assert prefix <= prefix + tail;
  }

  // ---- the provider files ---------------------------------------------------------------------

  /** The alias names an available, absolute, trusted file with bounded text and no zero byte. */
  predicate IsProvided(alias: string, providers: map<string, ProviderFile>, maxValue: nat, c: Codec) {
    && alias in providers
    && providers[alias].available && providers[alias].absolute && providers[alias].trusted
    && 0 < |providers[alias].content| <= maxValue && 0 !in providers[alias].content
    && c.decode(providers[alias].content).Some?
  }

  /** The bytes a variable stands for: its literal, or the content of its alias's file. */
  ghost predicate ValueIs(d: Declared, providers: map<string, ProviderFile>, c: Codec, value: Bytes) {
    match d.source
    case Literal(text) => value == c.encode(text)
    case Secret(alias) => alias in providers && value == providers[alias].content
  }

  predicate AllProvided(vars: seq<Declared>, providers: map<string, ProviderFile>, maxValue: nat, c: Codec) {
    forall d :: d in vars && d.source.Secret? ==> IsProvided(d.source.alias, providers, maxValue, c)
  }

  /** A task resolves if and only if every secret it references is provided; its values are exactly theirs. */
  lemma {:induction false} ResolvesIffProvided(vars: seq<Declared>, providers: map<string, ProviderFile>, maxValue: nat,
                                               c: Codec)
    ensures ValuesOf(vars, providers, maxValue, c).Some? <==> AllProvided(vars, providers, maxValue, c)
    ensures ValuesOf(vars, providers, maxValue, c).Some? ==>
      var values := ValuesOf(vars, providers, maxValue, c).value;
      |values| == |vars| && forall i :: 0 <= i < |vars| ==> ValueIs(vars[i], providers, c, values[i])
  {
    if vars != [] {
      ResolvesIffProvided(vars[1..], providers, maxValue, c);
      assert vars == [vars[0]] + vars[1..];
    }
    if ValuesOf(vars, providers, maxValue, c).Some? {
      var values := ValuesOf(vars, providers, maxValue, c).value;
      forall i | 0 <= i < |vars| ensures ValueIs(vars[i], providers, c, values[i]) {
        assert ValueOf(vars[i], providers, maxValue, c) == Some(values[i]);
      }
    }
  }

  /** The frame is delivered if and only if the task resolves and the frame is within the delivery limit. */
  lemma DeliveredIffProvided(vars: seq<Declared>, providers: map<string, ProviderFile>, maxValue: nat, taskId: string,
                             c: Codec)
    ensures HostFrame(vars, providers, maxValue, taskId, c).Some? <==>
      && AllProvided(vars, providers, maxValue, c) && IsTaskId(taskId)
      && exists values :: ValuesOf(vars, providers, maxValue, c) == Some(values)
           && |c.dumps(FrameJson(taskId, ItemsFor(vars, values)))| <= 64 * 1024
  {
    ResolvesIffProvided(vars, providers, maxValue, c);
  }

  // ---- end to end ----------------------------------------------------------------------------------

  /** A declared variable in the guest: its literal, or the text of its provider's file. */
  ghost predicate ArrivesAs(d: Declared, providers: map<string, ProviderFile>, maxValue: nat, c: Codec, text: string) {
    match d.source
    case Literal(literal) => text == literal
    case Secret(alias) =>
      IsProvided(alias, providers, maxValue, c) && c.decode(providers[alias].content) == Some(text)
  }

  /**
   From document and provider files to the guest: every declared variable arrives as its literal or as the
   text of the available, trusted file its alias names, the fixed variables are unchanged, and nothing else
   is set.
   */
  lemma EveryVariableArrives(raw: Bytes, repository: string, providers: map<string, ProviderFile>, maxValue: nat,
                             taskId: string, term: Option<string>, c: Codec, vars: seq<Declared>,
                             r: map<string, string>)
    requires Faithful(c) && ParseDeclaration(raw, repository, maxValue, c) == Some(vars)
    requires HostFrame(vars, providers, maxValue, taskId, c).Some?
    requires GuestEnvironment(HostFrame(vars, providers, maxValue, taskId, c).value, term, c) == Some(r)
    ensures forall d :: d in vars ==> d.name in r && ArrivesAs(d, providers, maxValue, c, r[d.name])
    ensures forall name :: name in Fixed(term) ==> name in r && r[name] == Fixed(term)[name]
    ensures forall name :: name in r ==> name in Fixed(term) || Names(vars, name)
  {
    GuestGetsTheDeclaredEnvironment(raw, repository, providers, maxValue, taskId, term, c);
    ResolvesIffProvided(vars, providers, maxValue, c);
    var values := ValuesOf(vars, providers, maxValue, c).value;
    forall d | d in vars ensures d.name in r && ArrivesAs(d, providers, maxValue, c, r[d.name]) {
      var i :| 0 <= i < |vars| && vars[i] == d;
      assert ValueIs(vars[i], providers, c, values[i]);
    }
  }

  // ---- the encoding is the standard one --------------------------------------------------------------

  const F: Byte := 0x66
  const O: Byte := 0x6f

  lemma OneByteExample()
    ensures Encode([F]) == "Zg=="
  {
  }

  lemma TwoByteExample()
    ensures Encode([F, O]) == "Zm8="
  {
  }

  lemma ThreeByteExample()
    ensures Encode([F, O, O]) == "Zm9v"
  {
    assert [F, O, O][3..] == [];
    assert Encode([]) == "";
  }

  /** Examples of section 10 of RFC 4648. */
  lemma StandardExamples()
    ensures Encode([F]) == "Zg==" && Encode([F, O]) == "Zm8=" && Encode([F, O, O]) == "Zm9v"
  {
    OneByteExample();
    TwoByteExample();
    ThreeByteExample();
  }

  /** The two symbols that are neither letters nor digits. */
  lemma LastSymbols()
    ensures Encode([0xfb, 0xef, 0xff]) == "++//"
  {
    assert [0xfb as Byte, 0xef, 0xff][3..] == [];
    assert Encode([]) == "";
  }

  // ---- what the guest accepts ---------------------------------------------------------------------------

  /** One item of a frame, by its fields, and the name and text it carries. */
  ghost predicate Carries(item: Json, name: string, text: string, c: Codec) {
    && item.Obj? && item.fields.Keys == {"name", "value_b64"}
    && Field(item.fields, "name") == Str(name) && ValidName(name)
    && exists encoded, value: Bytes ::
         && Field(item.fields, "value_b64") == Str(encoded) && Decode(encoded) == Some(value)
         && |value| <= 16 * 1024 && 0 !in value && c.decode(value) == Some(text)
  }

  lemma VariableIsCarried(item: Json, names: set<string>, c: Codec, name: string, text: string)
    ensures VariableOf(item, names, c) == Some((name, text)) <==> Carries(item, name, text, c) && name !in names
  {
    if item.Obj? && item.fields.Keys == {"name", "value_b64"} {
      assert "name" in item.fields.Keys && "value_b64" in item.fields.Keys;
    }
  }

  type Variables = seq<(string, string)>

  function WithAll(environment: map<string, string>, vars: Variables): map<string, string>
    decreases |vars|
  {
    if vars == [] then environment else WithAll(environment[vars[0].0 := vars[0].1], vars[1..])
  }

  ghost predicate CarriesAll(items: seq<Json>, vars: Variables, names: set<string>, c: Codec)
    decreases |items|
  {
    && |vars| == |items|
    && (items != [] ==>
          && Carries(items[0], vars[0].0, vars[0].1, c) && vars[0].0 !in names
          && CarriesAll(items[1..], vars[1..], names + {vars[0].0}, c))
  }

  lemma {:induction false} FillIsCarried(items: seq<Json>, environment: map<string, string>, names: set<string>,
                                         c: Codec)
    returns (vars: Variables)
    requires Fill(items, environment, names, c).Some?
    ensures CarriesAll(items, vars, names, c) && Fill(items, environment, names, c) == Some(WithAll(environment, vars))
    decreases |items|
  {
    if items == [] {
      vars := [];
    } else {
      var first := VariableOf(items[0], names, c).value;
      VariableIsCarried(items[0], names, c, first.0, first.1);
      var rest := FillIsCarried(items[1..], environment[first.0 := first.1], names + {first.0}, c);
      vars := [first] + rest;
      assert vars[1..] == rest;
    }
  }

  lemma {:induction false} CarriedIsFilled(items: seq<Json>, vars: Variables, environment: map<string, string>,
                                           names: set<string>, c: Codec)
    requires CarriesAll(items, vars, names, c)
    ensures Fill(items, environment, names, c) == Some(WithAll(environment, vars))
    decreases |items|
  {
    if items != [] {
      VariableIsCarried(items[0], names, c, vars[0].0, vars[0].1);
      CarriedIsFilled(items[1..], vars[1..], environment[vars[0].0 := vars[0].1], names + {vars[0].0}, c);
    }
  }

  /** A bounded frame document with a task id and at most 128 items. */
  ghost predicate IsFrame(raw: Bytes, items: seq<Json>, c: Codec) {
    && 0 < |raw| <= 64 * 1024 && c.loads(raw).Some? && c.loads(raw).value.Obj?
    && var fields := c.loads(raw).value.fields;
      && fields.Keys == {"schema", "task_id", "variables"}
      && Field(fields, "schema") == Str("gc.incus-sandbox.task-frame/v1")
      && Field(fields, "task_id").Str? && IsTaskId(Field(fields, "task_id").text)
      && Field(fields, "variables") == Arr(items) && |items| <= 128
  }

  lemma FrameIffItems(raw: Bytes, items: seq<Json>, c: Codec)
    ensures FrameItems(raw, c) == Some(items) <==> IsFrame(raw, items, c)
  {
    if c.loads(raw).Some? && c.loads(raw).value.Obj?
      && c.loads(raw).value.fields.Keys == {"schema", "task_id", "variables"} {
      var fields := c.loads(raw).value.fields;
      assert "schema" in fields.Keys && "task_id" in fields.Keys && "variables" in fields.Keys;
    }
  }

  /**
   Whatever arrives, the guest accepts it if and only if it is a bounded frame whose items carry differently
   named valid variables with bounded text; the environment is then the fixed variables and those.
   */
  lemma GuestAcceptsIff(raw: Bytes, term: Option<string>, c: Codec, r: map<string, string>)
    ensures GuestEnvironment(raw, term, c) == Some(r) <==>
      exists items, vars :: IsFrame(raw, items, c) && CarriesAll(items, vars, {}, c) && r == WithAll(Fixed(term), vars)
  {
    if GuestEnvironment(raw, term, c) == Some(r) {
      var items := FrameItems(raw, c).value;
      FrameIffItems(raw, items, c);
      var vars := FillIsCarried(items, Fixed(term), {}, c);
    }
    if items, vars :| IsFrame(raw, items, c) && CarriesAll(items, vars, {}, c) && r == WithAll(Fixed(term), vars) {
      FrameIffItems(raw, items, c);
      CarriedIsFilled(items, vars, Fixed(term), {}, c);
    }
  }
}
