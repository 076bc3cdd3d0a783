/**
 * Option parsing and configuration resolution (contrib/config.py): the
 * `k=v,k=v` parser, the overlay of user options on the per-type and
 * per-backend default tables, and the two-phase template composition.
 */
module Configuration {
  import opened Results
  import opened Text

  type OptionMap = map<string, string>

  // ---------------------------------------------------------------------
  // processOptions
  // ---------------------------------------------------------------------

  /**
   * The `ValueError` raised by `k, v = opt.split('=')` when the entry does not
   * split into exactly two pieces; `pieces` tells "not enough" from "too many".
   */
  datatype ParseError = MalformedEntry(entry: string, pieces: nat)

  /** An entry can be unpacked into a key and a value: it holds exactly one `=`. */
  predicate WellFormedEntry(entry: string)
  {
    Count(entry, '=') == 1
  }

  /** The text before the first `=` of an entry. */
  function KeyOf(entry: string): string
  {
    Split(entry, '=')[0]
  }

  /** The text after the `=` of a well-formed entry. */
  function ValueOf(entry: string): string
    requires WellFormedEntry(entry)
  {
    Split(entry, '=')[1]
  }

  /**
   * The entries inserted left to right into `acc`, stopping at the first entry
   * that cannot be unpacked.
   */
  function InsertEntries(acc: OptionMap, entries: seq<string>): Result<OptionMap, ParseError>
    decreases |entries|
  {
    if entries == [] then Ok(acc)
    else
      var kv := Split(entries[0], '=');
      if |kv| != 2 then Err(MalformedEntry(entries[0], |kv|))
      else InsertEntries(acc[kv[0] := kv[1]], entries[1..])
  }

  /** What `processOptions` returns or raises for `options`. */
  function ParseOptions(options: string): Result<OptionMap, ParseError>
  {
    if options == "" then Ok(map[]) else InsertEntries(map[], Split(options, ','))
  }

  /** The parser: split on `,`, unpack each entry on `=`, later entries overwrite. */
  method ProcessOptions(options: string) returns (r: Result<OptionMap, ParseError>)
    ensures r == ParseOptions(options)
    ensures options == "" ==> r == Ok(map[])
  {
    if options == "" {
      return Ok(map[]);
    }
    var optsList := Split(options, ',');
    var optsDict: OptionMap := map[];
    var i := 0;
    while i < |optsList|
      invariant 0 <= i <= |optsList|
      invariant ParseOptions(options) == InsertEntries(optsDict, optsList[i..])
    {
      var kv := Split(optsList[i], '=');
      if |kv| != 2 {
        return Err(MalformedEntry(optsList[i], |kv|));
      }
      assert optsList[i..][1..] == optsList[i + 1..];
      optsDict := optsDict[kv[0] := kv[1]];
      i := i + 1;
    }
    return Ok(optsDict);
  }

  /** An entry unpacks into two pieces exactly when it holds one `=`. */
  lemma WellFormedIffTwoPieces(entry: string)
    ensures WellFormedEntry(entry) <==> |Split(entry, '=')| == 2
  {
  }

  /** Insertion succeeds iff every entry holds exactly one `=`. */
  lemma {:induction false} InsertEntriesOkIff(acc: OptionMap, entries: seq<string>)
    ensures InsertEntries(acc, entries).Ok? <==>
              forall i :: 0 <= i < |entries| ==> WellFormedEntry(entries[i])
    decreases |entries|
  {
    if entries != [] {
      var kv := Split(entries[0], '=');
      if |kv| == 2 {
        InsertEntriesOkIff(acc[kv[0] := kv[1]], entries[1..]);
        assert forall i :: 1 <= i < |entries| ==> entries[i] == entries[1..][i - 1];
      }
    }
  }

  /** A failure names the first malformed entry; all entries before it are well formed. */
  lemma {:induction false} InsertEntriesErrFirst(acc: OptionMap, entries: seq<string>)
    requires InsertEntries(acc, entries).Err?
    ensures exists i :: 0 <= i < |entries| && !WellFormedEntry(entries[i])
              && InsertEntries(acc, entries).error
                 == MalformedEntry(entries[i], Count(entries[i], '=') + 1)
              && forall j :: 0 <= j < i ==> WellFormedEntry(entries[j])
    decreases |entries|
  {
    var kv := Split(entries[0], '=');
    if |kv| == 2 {
      var next, tail := acc[kv[0] := kv[1]], entries[1..];
      assert InsertEntries(acc, entries) == InsertEntries(next, tail);
      InsertEntriesErrFirst(next, tail);
      var i :| 0 <= i < |tail| && !WellFormedEntry(tail[i])
               && InsertEntries(next, tail).error == MalformedEntry(tail[i], Count(tail[i], '=') + 1)
               && forall j :: 0 <= j < i ==> WellFormedEntry(tail[j]);
      assert entries[i + 1] == tail[i];
      forall j | 0 <= j < i + 1 ensures WellFormedEntry(entries[j]) {
        if j > 0 { assert entries[j] == tail[j - 1]; }
      }
    } else {
      assert !WellFormedEntry(entries[0]);
    }
  }

  /** The keys of the result are those of `acc` and of every entry. */
  lemma {:induction false} InsertEntriesKeys(acc: OptionMap, entries: seq<string>)
    requires InsertEntries(acc, entries).Ok?
    ensures InsertEntries(acc, entries).value.Keys
            == acc.Keys + set i | 0 <= i < |entries| :: KeyOf(entries[i])
    decreases |entries|
  {
    if entries != [] {
      var kv := Split(entries[0], '=');
      var next, tail := acc[kv[0] := kv[1]], entries[1..];
      assert InsertEntries(acc, entries) == InsertEntries(next, tail);
      InsertEntriesKeys(next, tail);
      var tailKeys := set i | 0 <= i < |tail| :: KeyOf(tail[i]);
      var allKeys := set i | 0 <= i < |entries| :: KeyOf(entries[i]);
      assert allKeys == {KeyOf(entries[0])} + tailKeys by {
        forall k | k in allKeys ensures k in {KeyOf(entries[0])} + tailKeys {
          var i :| 0 <= i < |entries| && k == KeyOf(entries[i]);
          if i > 0 { assert entries[i] == tail[i - 1]; }
        }
        forall k | k in tailKeys ensures k in allKeys {
          var i :| 0 <= i < |tail| && k == KeyOf(tail[i]);
          assert tail[i] == entries[i + 1];
        }
      }
    }
  }

  /**
   * Last occurrence wins: an entry that no later entry shares its key with
   * decides that key's value; a key no entry mentions keeps its `acc` value.
   */
  lemma {:induction false} InsertEntriesLastWins(acc: OptionMap, entries: seq<string>, i: nat)
    requires InsertEntries(acc, entries).Ok?
    requires i < |entries|
    requires forall j :: i < j < |entries| ==> KeyOf(entries[j]) != KeyOf(entries[i])
    ensures WellFormedEntry(entries[i])
    ensures KeyOf(entries[i]) in InsertEntries(acc, entries).value
    ensures InsertEntries(acc, entries).value[KeyOf(entries[i])] == ValueOf(entries[i])
    decreases |entries|
  {
    InsertEntriesOkIff(acc, entries);
    var kv := Split(entries[0], '=');
    var next := acc[kv[0] := kv[1]];
    if i == 0 {
      InsertEntriesUntouched(next, entries[1..], kv[0]);
    } else {
      assert forall j :: i - 1 < j < |entries[1..]| ==> entries[1..][j] == entries[j + 1];
      InsertEntriesLastWins(next, entries[1..], i - 1);
    }
  }

  /** A key that no entry mentions keeps the value it had in `acc`. */
  lemma {:induction false} InsertEntriesUntouched(acc: OptionMap, entries: seq<string>, k: string)
    requires InsertEntries(acc, entries).Ok?
    requires k in acc
    requires forall j :: 0 <= j < |entries| ==> KeyOf(entries[j]) != k
    ensures k in InsertEntries(acc, entries).value
    ensures InsertEntries(acc, entries).value[k] == acc[k]
    decreases |entries|
  {
    if entries != [] {
      var kv := Split(entries[0], '=');
      assert forall j :: 0 <= j < |entries[1..]| ==> entries[1..][j] == entries[j + 1];
      InsertEntriesUntouched(acc[kv[0] := kv[1]], entries[1..], k);
    }
  }

  /** The empty string parses to the empty map. */
  lemma ParseEmpty()
    ensures ParseOptions("") == Ok(map[])
  {
  }

  /**
   * A non-empty string parses iff every comma-separated entry holds exactly
   * one `=`; the keys are exactly the entry keys, and the last entry with a
   * given key supplies its value.
   */
  lemma ParseOptionsMeaning(options: string, entries: seq<string>)
    requires options != "" && entries == Split(options, ',')
    ensures ParseOptions(options).Ok? <==>
              forall i :: 0 <= i < |entries| ==> WellFormedEntry(entries[i])
    ensures ParseOptions(options).Ok? ==>
              ParseOptions(options).value.Keys == set i | 0 <= i < |entries| :: KeyOf(entries[i])
    ensures ParseOptions(options).Ok? ==>
              forall i :: 0 <= i < |entries|
                          && (forall j :: i < j < |entries| ==> KeyOf(entries[j]) != KeyOf(entries[i]))
                          ==> WellFormedEntry(entries[i])
                              && KeyOf(entries[i]) in ParseOptions(options).value
                              && ParseOptions(options).value[KeyOf(entries[i])] == ValueOf(entries[i])
  {
    var r := InsertEntries(map[], entries);
    assert ParseOptions(options) == r;
    InsertEntriesOkIff(map[], entries);
    if r.Ok? {
      InsertEntriesKeys(map[], entries);
      forall i | 0 <= i < |entries|
                 && (forall j :: i < j < |entries| ==> KeyOf(entries[j]) != KeyOf(entries[i]))
        ensures WellFormedEntry(entries[i]) && KeyOf(entries[i]) in r.value
                && r.value[KeyOf(entries[i])] == ValueOf(entries[i])
      {
        InsertEntriesLastWins(map[], entries, i);
      }
    }
  }

  /** A failing parse reports the first entry without exactly one `=`. */
  lemma ParseOptionsError(options: string)
    requires ParseOptions(options).Err?
    ensures exists i :: 0 <= i < |Split(options, ',')| && !WellFormedEntry(Split(options, ',')[i])
              && ParseOptions(options).error
                 == MalformedEntry(Split(options, ',')[i], Count(Split(options, ',')[i], '=') + 1)
              && forall j :: 0 <= j < i ==> WellFormedEntry(Split(options, ',')[j])
  {
    InsertEntriesErrFirst(map[], Split(options, ','));
  }

  /** `"a=1,b=2,a=3"` parses to `{a: "3", b: "2"}`. */
  lemma ParseExampleLastWins()
    ensures ParseOptions("a=1,b=2,a=3") == Ok(map["a" := "3", "b" := "2"])
  {
    assert "a=1" + [','] + "b=2" + [','] + "a=3" == "a=1,b=2,a=3";
    SplitThree("a=1", "b=2", "a=3", ',');
    InsertExampleEntries();
  }

  lemma InsertExampleEntries()
    ensures InsertEntries(map[], ["a=1", "b=2", "a=3"]) == Ok(map["a" := "3", "b" := "2"])
  {
    assert "a" + "=" + "1" == "a=1";
    assert "b" + "=" + "2" == "b=2";
    assert "a" + "=" + "3" == "a=3";
    InsertThree(map[], "a", "1", "b", "2", "a", "3");
    var empty: OptionMap := map[];
    assert empty["a" := "1"]["b" := "2"]["a" := "3"] == map["a" := "3", "b" := "2"];
  }

  /** Three well-formed entries are inserted in order. */
  lemma InsertThree(acc: OptionMap, k1: string, v1: string, k2: string, v2: string, k3: string, v3: string)
    requires '=' !in k1 && '=' !in v1 && '=' !in k2 && '=' !in v2 && '=' !in k3 && '=' !in v3
    ensures InsertEntries(acc, [k1 + "=" + v1, k2 + "=" + v2, k3 + "=" + v3])
            == Ok(acc[k1 := v1][k2 := v2][k3 := v3])
  {
    var e1, e2, e3 := k1 + "=" + v1, k2 + "=" + v2, k3 + "=" + v3;
    assert [e1, e2, e3] == [e1] + [e2, e3] && [e2, e3] == [e2] + [e3] && [e3] == [e3] + [];
    InsertOne(acc, e1, [e2, e3], k1, v1);
    InsertOne(acc[k1 := v1], e2, [e3], k2, v2);
    InsertOne(acc[k1 := v1][k2 := v2], e3, [], k3, v3);
  }

  /** One well-formed entry at the front is inserted before the rest. */
  lemma InsertOne(acc: OptionMap, entry: string, rest: seq<string>, k: string, v: string)
    requires '=' !in k && '=' !in v && entry == k + "=" + v
    ensures InsertEntries(acc, [entry] + rest) == InsertEntries(acc[k := v], rest)
  {
    SplitTwo(k, v, '=');
    assert ([entry] + rest)[1..] == rest;
  }

  /** A malformed entry at the front stops the insertion with an error. */
  lemma InsertReject(acc: OptionMap, entry: string, rest: seq<string>)
    requires !WellFormedEntry(entry)
    ensures InsertEntries(acc, [entry] + rest) == Err(MalformedEntry(entry, Count(entry, '=') + 1))
  {
    assert ([entry] + rest)[0] == entry;
  }

  /** An empty entry, as in `"a=1,,b=2"`, cannot be unpacked. */
  lemma ParseExampleEmptyEntry()
    ensures ParseOptions("a=1,,b=2") == Err(MalformedEntry("", 1))
  {
    assert "a=1" + [','] + "" + [','] + "b=2" == "a=1,,b=2";
    SplitThree("a=1", "", "b=2", ',');
    assert "a" + "=" + "1" == "a=1";
    assert ["a=1", "", "b=2"] == ["a=1"] + ([""] + ["b=2"]);
    InsertOne(map[], "a=1", [""] + ["b=2"], "a", "1");
    InsertReject(map["a" := "1"], "", ["b=2"]);
  }

  /** An entry without `=`, as in `"a=1,b"`, cannot be unpacked. */
  lemma ParseExampleMissingEquals()
    ensures ParseOptions("a=1,b") == Err(MalformedEntry("b", 1))
  {
    assert "a=1" + [','] + "b" == "a=1,b";
    SplitTwo("a=1", "b", ',');
    assert "a" + "=" + "1" == "a=1";
    assert ["a=1", "b"] == ["a=1"] + (["b"] + []);
    InsertOne(map[], "a=1", ["b"] + [], "a", "1");
    InsertReject(map["a" := "1"], "b", []);
  }

  /** An entry with two `=`, as in `"a=1=2"`, cannot be unpacked either. */
  lemma ParseExampleTwoEquals()
    ensures ParseOptions("a=1=2") == Err(MalformedEntry("a=1=2", 3))
  {
    SplitPiece("a=1=2", ',');
    assert "a" + ['='] + "1" + ['='] + "2" == "a=1=2";
    SplitThree("a", "1", "2", '=');
    assert ["a=1=2"] == ["a=1=2"] + [];
    InsertReject(map[], "a=1=2", []);
  }

  // ---------------------------------------------------------------------
  // Default tables and processConfig
  // ---------------------------------------------------------------------

  const RootDir: string := "/opt/terraform"
  const TypeKey: string := "type"
  const BackendConfigurationKey: string := "backend_configuration"

  /** `ARG_DEFAULTS`: the backend kind used when the user names none. */
  const ArgDefaults: OptionMap := map["backend" := "local", "region" := "us-east-1"]

  /** `APP_DEFAULTS`: template options per infrastructure type. */
  const AppDefaults: map<string, OptionMap> :=
    map["site" := map["domain_name" := "example.com"], "app" := map[]]

  /** `BACKEND_DEFAULTS`: backend options per backend kind. */
  const BackendDefaults: map<string, OptionMap> :=
    map["s3" := map["bucket" := "my-terraform-bucket", "state_name" := "terraform",
                    "bucket_region" := "us-east-1"],
        "local" := map["path" := "/state/terraform.tfstate"]]

  /** The parsed command line as far as resolution reads it. */
  datatype Args = Args(infraType: string, appOptions: string, backendOptions: string, quiet: int)

  /** The `config` dictionary that `processConfig` builds. */
  datatype Config = Config(quiet: int, rootDir: string, workDir: string,
                           backend: OptionMap, template: OptionMap)

  /** The exceptions resolution raises: a `ValueError` from parsing, a `KeyError` from a table lookup. */
  datatype ConfigError =
    | AppOptionsError(cause: ParseError)
    | UnknownType(name: string)
    | BackendOptionsError(cause: ParseError)
    | UnknownBackend(kind: string)

  /** `{**defaults, **user}`: a fresh map in which the user's entries win. */
  function Overlay(defaults: OptionMap, user: OptionMap): (r: OptionMap)
    ensures r.Keys == defaults.Keys + user.Keys
    ensures forall k :: k in user ==> r[k] == user[k]
    ensures forall k :: k in defaults && k !in user ==> r[k] == defaults[k]
  {
    defaults + user
  }

  /** The backend kind: the user's `type` entry, else `ARG_DEFAULTS['backend']`. */
  function BackendKind(userBackend: OptionMap): string
  {
    if TypeKey in userBackend then userBackend[TypeKey] else ArgDefaults["backend"]
  }

  /** The configuration `processConfig` has built when it calls `buildTerraformTemplate`. */
  function Resolve(args: Args): Result<Config, ConfigError>
  {
    match ParseOptions(args.appOptions)
    case Err(e) => Err(AppOptionsError(e))
    case Ok(userApp) =>
      if args.infraType !in AppDefaults then Err(UnknownType(args.infraType))
      else
        match ParseOptions(args.backendOptions)
        case Err(e) => Err(BackendOptionsError(e))
        case Ok(userBackend) =>
          var kind := BackendKind(userBackend);
          if kind !in BackendDefaults then Err(UnknownBackend(kind))
          else
            var backend := Overlay(BackendDefaults[kind], userBackend[TypeKey := kind]);
            var template := Overlay(AppDefaults[args.infraType], userApp);
            Ok(Config(args.quiet, RootDir, RootDir + "/" + args.infraType, backend, template))
  }

  /** Resolution fails exactly on a parse error or an unknown table key, checked in source order. */
  lemma ResolveErrors(args: Args)
    ensures ParseOptions(args.appOptions).Err? ==>
              Resolve(args) == Err(AppOptionsError(ParseOptions(args.appOptions).error))
    ensures ParseOptions(args.appOptions).Ok? && args.infraType !in AppDefaults ==>
              Resolve(args) == Err(UnknownType(args.infraType))
    ensures ParseOptions(args.appOptions).Ok? && args.infraType in AppDefaults
            && ParseOptions(args.backendOptions).Err? ==>
              Resolve(args) == Err(BackendOptionsError(ParseOptions(args.backendOptions).error))
    ensures ParseOptions(args.appOptions).Ok? && args.infraType in AppDefaults
            && ParseOptions(args.backendOptions).Ok?
            && BackendKind(ParseOptions(args.backendOptions).value) !in BackendDefaults ==>
              Resolve(args) == Err(UnknownBackend(BackendKind(ParseOptions(args.backendOptions).value)))
    ensures Resolve(args).Ok? <==>
              && ParseOptions(args.appOptions).Ok? && args.infraType in AppDefaults
              && ParseOptions(args.backendOptions).Ok?
              && BackendKind(ParseOptions(args.backendOptions).value) in BackendDefaults
  {
  }

  /** `quiet` is copied, `root_dir` is fixed and `work_dir` is `root_dir/<type>`. */
  lemma ResolvePaths(args: Args)
    requires Resolve(args).Ok?
    ensures Resolve(args).value.quiet == args.quiet
    ensures Resolve(args).value.rootDir == "/opt/terraform"
    ensures Resolve(args).value.workDir == "/opt/terraform/" + args.infraType
  {
  }

  /**
   * The template options are the type's defaults overlaid with the user's
   * options: every default key is present, the user's value wins on a
   * collision, and no other keys appear.
   */
  lemma ResolveTemplateOptions(args: Args)
    requires Resolve(args).Ok?
    ensures var user := ParseOptions(args.appOptions).value;
            var defaults := AppDefaults[args.infraType];
            var template := Resolve(args).value.template;
            && template.Keys == defaults.Keys + user.Keys
            && (forall k :: k in user ==> template[k] == user[k])
            && (forall k :: k in defaults && k !in user ==> template[k] == defaults[k])
  {
  }

  /**
   * The backend options always carry `type` (the user's, else `local`), hold
   * every default key of that kind with the user's values winning, and have
   * no keys beyond the user's, the defaults' and `type`.
   */
  lemma ResolveBackendOptions(args: Args)
    requires Resolve(args).Ok?
    ensures var user := ParseOptions(args.backendOptions).value;
            var backend := Resolve(args).value.backend;
            var kind := if TypeKey in user then user[TypeKey] else "local";
            && kind in BackendDefaults
            && TypeKey in backend && backend[TypeKey] == kind
            && backend.Keys == BackendDefaults[kind].Keys + user.Keys + {TypeKey}
            && (forall k :: k in user ==> backend[k] == user[k])
            && (forall k :: k in BackendDefaults[kind] && k !in user && k != TypeKey ==>
                              backend[k] == BackendDefaults[kind][k])
  {
    var user := ParseOptions(args.backendOptions).value;
    var kind := BackendKind(user);
    assert Resolve(args).value.backend == Overlay(BackendDefaults[kind], user[TypeKey := kind]);
  }

  /** A `local` backend always has a `path`; an `s3` one a `bucket`, `state_name` and `bucket_region`. */
  lemma ResolveBackendFields(args: Args)
    requires Resolve(args).Ok?
    ensures Resolve(args).value.backend[TypeKey] == "local" ==> "path" in Resolve(args).value.backend
    ensures Resolve(args).value.backend[TypeKey] == "s3" ==>
              && "bucket" in Resolve(args).value.backend
              && "state_name" in Resolve(args).value.backend
              && "bucket_region" in Resolve(args).value.backend
  {
  }

  // ---------------------------------------------------------------------
  // buildTerraformTemplate
  // ---------------------------------------------------------------------

  /** A template as `Environment(loader=FileSystemLoader(dir)).get_template(name)` finds it. */
  datatype TemplateRef = TemplateRef(dir: string, name: string)

  /** Jinja rendering of a template with a context: outside the model, so a parameter. */
  type Renderer = (TemplateRef, OptionMap) -> string

  /** The one file the composition writes. */
  datatype FileWrite = FileWrite(path: string, content: string)

  /** What `processConfig` returns, together with the `main.tf` it wrote. */
  datatype Resolved = Resolved(config: Config, mainTf: FileWrite)

  /** The backend fragment: `<type>.tf.template` under `root_dir/backends`. */
  function FragmentRef(config: Config): TemplateRef
    requires TypeKey in config.backend
  {
    TemplateRef(config.rootDir + "/backends", config.backend[TypeKey] + ".tf.template")
  }

  /** The root template: `main.tf.template` under `work_dir`. */
  function MainTemplateRef(config: Config): TemplateRef
  {
    TemplateRef(config.workDir, "main.tf.template")
  }

  /**
   * `after` and `mainTf` are what composing `before` yields: only the template
   * options change, gaining `backend_configuration` (the fragment rendered
   * with the backend options, overriding any user key of that name) and
   * keeping every other key; the root template is rendered with exactly those
   * options and written to `work_dir/main.tf`.
   */
  ghost predicate Composed(before: Config, after: Config, mainTf: FileWrite, render: Renderer)
    requires TypeKey in before.backend
  {
    && after.quiet == before.quiet && after.rootDir == before.rootDir
    && after.workDir == before.workDir && after.backend == before.backend
    && after.template.Keys == before.template.Keys + {BackendConfigurationKey}
    && after.template[BackendConfigurationKey] == render(FragmentRef(before), before.backend)
    && (forall k :: k in before.template && k != BackendConfigurationKey ==>
                      after.template[k] == before.template[k])
    && mainTf.path == before.workDir + "/main.tf"
    && mainTf.content == render(MainTemplateRef(before), after.template)
  }

  /**
   * Renders the backend fragment, stores it under `backend_configuration` in
   * the template options (in place in `buildTerraformTemplate`, so the caller's
   * config sees it), renders the root template and writes `main.tf`.
   */
  method BuildTerraformTemplate(config: Config, render: Renderer) returns (updated: Config, mainTf: FileWrite)
    requires TypeKey in config.backend
    ensures Composed(config, updated, mainTf, render)
  {
    var templateOpts := config.template;
    var backendOpts := config.backend;
    var backendBlock := render(TemplateRef(config.rootDir + "/backends", backendOpts[TypeKey] + ".tf.template"),
                               backendOpts);
    templateOpts := templateOpts[BackendConfigurationKey := backendBlock];
    var content := render(TemplateRef(config.workDir, "main.tf.template"), templateOpts);
    updated := config.(template := templateOpts);
    mainTf := FileWrite(config.workDir + "/main.tf", content);
  }

  /**
   * The written file is the root template rendered with the template options
   * plus the separately rendered fragment: composing by hand gives the same text.
   */
  lemma ComposedRoundTrip(before: Config, after: Config, mainTf: FileWrite, render: Renderer)
    requires TypeKey in before.backend
    requires Composed(before, after, mainTf, render)
    ensures after.template ==
              before.template[BackendConfigurationKey := render(FragmentRef(before), before.backend)]
    ensures mainTf.content ==
              render(MainTemplateRef(before),
                     before.template[BackendConfigurationKey := render(FragmentRef(before), before.backend)])
  {
    var manual := before.template[BackendConfigurationKey := render(FragmentRef(before), before.backend)];
    assert after.template.Keys == manual.Keys;
    assert forall k :: k in manual ==> after.template[k] == manual[k];
  }

  /**
   * `processConfig`: copies `quiet`, fixes the directories, overlays the
   * parsed options on the default tables, defaults the backend `type`, and
   * composes `main.tf`. Each failure is the first one `processConfig` would raise.
   */
  method ProcessConfig(args: Args, render: Renderer) returns (r: Result<Resolved, ConfigError>)
    ensures Resolve(args).Err? ==> r == Err(Resolve(args).error)
    ensures Resolve(args).Ok? ==>
              && r.Ok? && TypeKey in Resolve(args).value.backend
              && Composed(Resolve(args).value, r.value.config, r.value.mainTf, render)
  {
    var quiet := args.quiet;
    var rootDir := RootDir;
    var workDir := rootDir + "/" + args.infraType;

    var templateOpts := ProcessOptions(args.appOptions);
    if templateOpts.Err? {
      return Err(AppOptionsError(templateOpts.error));
    }
    if args.infraType !in AppDefaults {
      return Err(UnknownType(args.infraType));
    }
    var template := Overlay(AppDefaults[args.infraType], templateOpts.value);

    var backendOpts := ProcessOptions(args.backendOptions);
    if backendOpts.Err? {
      return Err(BackendOptionsError(backendOpts.error));
    }
    var backend := backendOpts.value;
    if TypeKey !in backend {
      backend := backend[TypeKey := ArgDefaults["backend"]];
    }
    assert backend == backendOpts.value[TypeKey := BackendKind(backendOpts.value)];
    if backend[TypeKey] !in BackendDefaults {
      return Err(UnknownBackend(backend[TypeKey]));
    }
    backend := Overlay(BackendDefaults[backend[TypeKey]], backend);

    var config := Config(quiet, rootDir, workDir, backend, template);
    var updated, mainTf := BuildTerraformTemplate(config, render);
    return Ok(Resolved(updated, mainTf));
  }

  /** For a resolved configuration the fragment and output paths follow from the type names. */
  lemma ResolvedPaths(args: Args)
    requires Resolve(args).Ok?
    ensures TypeKey in Resolve(args).value.backend
    ensures FragmentRef(Resolve(args).value)
            == TemplateRef("/opt/terraform/backends", Resolve(args).value.backend[TypeKey] + ".tf.template")
    ensures MainTemplateRef(Resolve(args).value) == TemplateRef("/opt/terraform/" + args.infraType, "main.tf.template")
  {
    var user := ParseOptions(args.backendOptions).value;
    var kind := BackendKind(user);
    var config := Resolve(args).value;
    assert config.rootDir == RootDir && config.workDir == RootDir + "/" + args.infraType;
    assert config.backend == Overlay(BackendDefaults[kind], user[TypeKey := kind]);
    assert RootDir + "/" == "/opt/terraform/";
  }
}
