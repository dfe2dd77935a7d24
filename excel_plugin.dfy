/** The Excel source/sink plugin of the DuckDB adapter for dbt.

    `load` turns a source's `external_location` into the arguments of a
    spreadsheet read; `store` lazily opens one shared workbook writer and
    appends one sheet per stored relation; teardown closes that writer if one
    was ever opened. The spreadsheet library itself (reading, writing,
    closing) is opaque here: a read is the `ReadCall` handed to it, a writer is
    the parameters it was opened with, and a write is a `SheetWrite` record. */
module ExcelPlugin {
  import opened PyValues
  import opened PyStrings

  // ---------------------------------------------------------------------
  // load: where to read from and which sheet

  /** A resolved source: a remote URI passed through as is, or a local path. */
  datatype Location = Remote(uri: string) | LocalPath(path: string)

  /** The arguments handed to the spreadsheet reader. */
  datatype ReadCall = ReadCall(location: Location, sheet: Value)

  /** How a formatted `external_location` is turned into a location: anything
      that mentions "s3" anywhere is remote and kept verbatim; anything else is
      a local path with every leading and trailing `'` removed. */
  function ResolveLocation(ext: string): (loc: Location)
    ensures loc.Remote? <==> Contains(ext, "s3")
    ensures loc.Remote? ==> loc.uri == ext
    ensures loc.LocalPath? ==> IsStripOf(ext, '\'', loc.path)
  {
    if Contains(ext, "s3") then Remote(ext) else LocalPath(Strip(ext, '\''))
  }

  /** `Plugin.load` up to the library read. `format` stands for Python's
      `str.format` applied with the source's own fields. */
  function Load(source: map<string, Value>, format: (string, map<string, Value>) -> string): (r: Result<ReadCall>)
    ensures "external_location" !in source ==> r == Failure(KeyError("external_location"))
    ensures "external_location" in source && !source["external_location"].Str? ==>
              r == Failure(AttributeError("format"))
    ensures "external_location" in source && source["external_location"].Str? ==>
              r.Success? && r.value.location == ResolveLocation(format(source["external_location"].s, source))
    ensures r.Success? && "sheet_name" in source ==> r.value.sheet == source["sheet_name"]
    ensures r.Success? && "sheet_name" !in source ==> r.value.sheet == Int(0)
  {
    if "external_location" !in source then Failure(KeyError("external_location"))
    else
      var template := source["external_location"];
      if !template.Str? then Failure(AttributeError("format"))
      else
        var location := ResolveLocation(format(template.s, source));
        Success(ReadCall(location, Get(source, "sheet_name", Int(0))))
  }

  /** A string with no 's' followed by '3' does not contain "s3". */
  lemma NoS3(s: string)
    requires forall i :: 0 <= i < |s| - 1 ==> s[i] != 's' || s[i + 1] != '3'
    ensures !Contains(s, "s3")
  {
    forall i | 0 <= i <= |s| - 2 ensures !OccursAt(s, "s3", i) {
      assert s[i] != 's' || s[i + 1] != '3';
    }
  }

  /** A local path wrapped in quotes loses them. */
  lemma QuotedLocalPath()
    ensures ResolveLocation("'./f.xlsx'") == LocalPath("./f.xlsx")
  {
    var quoted := "'./f.xlsx'";
    NoS3(quoted);
    assert StripsTo(quoted, '\'', 1, 9, "./f.xlsx");
    StripCharacterized(quoted, '\'', "./f.xlsx");
  }

  /** Repeated quotes are all removed, not just one enclosing pair. */
  lemma RepeatedQuotes()
    ensures ResolveLocation("''./f.xlsx''") == LocalPath("./f.xlsx")
  {
    var doubled := "''./f.xlsx''";
    NoS3(doubled);
    assert StripsTo(doubled, '\'', 2, 10, "./f.xlsx");
    StripCharacterized(doubled, '\'', "./f.xlsx");
  }

  /** Any location mentioning "s3" is passed through verbatim, even a quoted
      local path that happens to contain it. */
  lemma S3PassThrough()
    ensures ResolveLocation("s3://bucket/f.xlsx") == Remote("s3://bucket/f.xlsx")
    ensures ResolveLocation("'./s3/f.xlsx'") == Remote("'./s3/f.xlsx'")
  {
    assert OccursAt("s3://bucket/f.xlsx", "s3", 0);
    assert OccursAt("'./s3/f.xlsx'", "s3", 3);
  }

  /** A plain local path is used as it is. */
  lemma PlainLocalPath()
    ensures ResolveLocation("f.xlsx") == LocalPath("f.xlsx")
  {
    var plain := "f.xlsx";
    NoS3(plain);
    StripUnquoted(plain, '\'');
  }

  /** Without a `sheet_name` the first sheet is read. */
  lemma FirstSheetByDefault(format: (string, map<string, Value>) -> string)
    requires format("f.xlsx", map["external_location" := Str("f.xlsx")]) == "f.xlsx"
    ensures Load(map["external_location" := Str("f.xlsx")], format)
            == Success(ReadCall(LocalPath("f.xlsx"), Int(0)))
  {
    var source := map["external_location" := Str("f.xlsx")];
    var r := Load(source, format);
    assert r.Success? && r.value.location == ResolveLocation("f.xlsx");
    assert r.value.sheet == Int(0);
    PlainLocalPath();
  }

  // ---------------------------------------------------------------------
  // initialize: configuration check and credential export

  const AccessKeyIdKey := "s3_access_key_id"
  const SecretKeyKey := "s3_secret_access_key"
  const RegionKey := "s3_region"
  const AccessKeyIdVar := "AWS_ACCESS_KEY_ID"
  const SecretKeyVar := "AWS_SECRET_ACCESS_KEY"
  const RegionVar := "AWS_DEFAULT_REGION"
  const CredentialVars := {AccessKeyIdVar, SecretKeyVar, RegionVar}

  /** The `output` entry, when present, is a mapping that names a `file`. */
  predicate OutputValid(config: map<string, Value>) {
    "output" in config ==> config["output"].Dict? && "file" in config["output"].entries
  }

  /** The configuration has an `output` mapping naming a `file`. */
  predicate HasOutputFile(config: map<string, Value>) {
    "output" in config && OutputValid(config)
  }

  function OutputConfig(config: map<string, Value>): map<string, Value>
    requires HasOutputFile(config)
  {
    config["output"].entries
  }

  /** Every credential key that is present holds a string (os.environ takes only strings). */
  predicate CredentialsAreStrings(config: map<string, Value>) {
    && (AccessKeyIdKey in config ==> config[AccessKeyIdKey].Str?)
    && (SecretKeyKey in config ==> config[SecretKeyKey].Str?)
    && (RegionKey in config ==> config[RegionKey].Str?)
  }

  /** Variable `name` of `env'` holds the string at `key` if `key` is configured,
      and is as it was in `env` otherwise. */
  ghost predicate CopiedOrKept(env: map<string, string>, env': map<string, string>,
                               config: map<string, Value>, key: string, name: string)
  {
    if key in config then config[key].Str? && name in env' && env'[name] == config[key].s
    else (name in env' <==> name in env) && (name in env ==> env'[name] == env[name])
  }

  /** Every variable outside `names` is as it was. */
  ghost predicate OthersKept(env: map<string, string>, env': map<string, string>, names: set<string>) {
    forall k :: k !in names ==> (k in env' <==> k in env) && (k in env ==> env'[k] == env[k])
  }

  /** The environment after a complete credential export. */
  ghost predicate ExportedFrom(env: map<string, string>, env': map<string, string>, config: map<string, Value>) {
    && CopiedOrKept(env, env', config, AccessKeyIdKey, AccessKeyIdVar)
    && CopiedOrKept(env, env', config, SecretKeyKey, SecretKeyVar)
    && CopiedOrKept(env, env', config, RegionKey, RegionVar)
    && OthersKept(env, env', CredentialVars)
  }

  /** The environment after an export, and whether it raised. */
  datatype Export = Export(env: map<string, string>, outcome: Outcome)

  /** `if key in config: os.environ[name] = config[key]` */
  function ExportOne(env: map<string, string>, config: map<string, Value>, key: string, name: string): (r: Export)
    ensures r.outcome.Ok? <==> (key in config ==> config[key].Str?)
    ensures r.outcome.Raised? ==> r.outcome.error == TypeError && r.env == env
    ensures r.outcome.Ok? ==> CopiedOrKept(env, r.env, config, key, name)
    ensures OthersKept(env, r.env, {name})
  {
    if key !in config then Export(env, Ok)
    else if config[key].Str? then Export(env[name := config[key].s], Ok)
    else Export(env, Raised(TypeError))
  }

  /** The three exports in source order; the first that raises stops the rest,
      leaving the earlier ones in place. */
  function ExportCredentials(env: map<string, string>, config: map<string, Value>): (r: Export)
    ensures r.outcome.Ok? <==> CredentialsAreStrings(config)
    ensures r.outcome.Raised? ==> r.outcome.error == TypeError
    ensures r.outcome.Ok? ==> ExportedFrom(env, r.env, config)
    ensures OthersKept(env, r.env, CredentialVars)
  {
    var first := ExportOne(env, config, AccessKeyIdKey, AccessKeyIdVar);
    if first.outcome.Raised? then first
    else
      var second := ExportOne(first.env, config, SecretKeyKey, SecretKeyVar);
      if second.outcome.Raised? then second
      else ExportOne(second.env, config, RegionKey, RegionVar)
  }

  // ---------------------------------------------------------------------
  // store: the lazily created writer and the sheets written to it

  /** What the relation's result converts to; the conversion is opaque. */
  datatype Frame = Frame(id: nat)

  /** One relation to store: its identifier, its model config and its data. */
  datatype Target = Target(identifier: string, config: map<string, Value>, frame: Frame)

  /** The parameters a workbook writer was opened with. */
  datatype Writer = Writer(file: Value, mode: Value, engine: Value, engineKwargs: Value,
                           dateFormat: Value, datetimeFormat: Value)

  /** The writer's lifecycle: not yet created, open and accumulating sheets, closed. */
  datatype WriterState = Absent | Open(writer: Writer) | Closed(writer: Writer)

  /** The arguments of one sheet write, and whether the library's default
      header style was in force when it was written. */
  datatype SheetWrite = SheetWrite(frame: Frame, sheetName: Value, naRep: Value, floatFormat: Value,
                                   header: Value, index: Value, mergeCells: Value, infRep: Value,
                                   styledHeader: bool)

  /** The writer the output configuration asks for, with the library defaults
      for what it leaves out. */
  function NewWriter(output: map<string, Value>): (w: Writer)
    requires "file" in output
    ensures w.file == output["file"]
    ensures "mode" in output ==> w.mode == output["mode"]
    ensures "mode" !in output ==> w.mode == Str("w")
    ensures "engine" in output ==> w.engine == output["engine"]
    ensures "engine" !in output ==> w.engine == Str("xlsxwriter")
    ensures "engine_kwargs" in output ==> w.engineKwargs == output["engine_kwargs"]
    ensures "engine_kwargs" !in output ==> w.engineKwargs == Dict(map[])
    ensures "date_format" in output ==> w.dateFormat == output["date_format"]
    ensures "date_format" !in output ==> w.dateFormat == PyNone
    ensures "datetime_format" in output ==> w.datetimeFormat == output["datetime_format"]
    ensures "datetime_format" !in output ==> w.datetimeFormat == PyNone
  {
    Writer(output["file"], Get(output, "mode", Str("w")), Get(output, "engine", Str("xlsxwriter")),
           Get(output, "engine_kwargs", Dict(map[])), Get(output, "date_format", PyNone),
           Get(output, "datetime_format", PyNone))
  }

  /** The output configuration switches the default header style off. */
  predicate HeaderStylingOff(output: map<string, Value>) {
    "header_styling" in output && EqualsFalse(output["header_styling"])
  }

  /** Python's `{**base, **overrides}`. */
  function Merge(base: map<string, Value>, overrides: map<string, Value>): (m: map<string, Value>)
    ensures m.Keys == base.Keys + overrides.Keys
    ensures forall k :: k in overrides ==> m[k] == overrides[k]
    ensures forall k :: k in base && k !in overrides ==> m[k] == base[k]
  {
    base + overrides
  }

  /** The sheet written for `target` under the effective options: the sheet
      name falls back to the relation identifier, the other options to their
      fixed defaults. */
  function SheetFor(effective: map<string, Value>, target: Target, styled: bool): (w: SheetWrite)
    ensures w.frame == target.frame && w.styledHeader == styled
    ensures "sheet_name" in effective ==> w.sheetName == effective["sheet_name"]
    ensures "sheet_name" !in effective ==> w.sheetName == Str(target.identifier)
    ensures w.naRep == if "na_rep" in effective then effective["na_rep"] else Str("")
    ensures w.floatFormat == if "float_format" in effective then effective["float_format"] else PyNone
    ensures w.header == if "header" in effective then effective["header"] else Bool(true)
    ensures w.index == if "index" in effective then effective["index"] else Bool(true)
    ensures w.mergeCells == if "merge_cells" in effective then effective["merge_cells"] else Bool(true)
    ensures w.infRep == if "inf_rep" in effective then effective["inf_rep"] else Str("inf")
  {
    var named := if "sheet_name" in effective then effective
                 else effective["sheet_name" := Str(target.identifier)];
    SheetWrite(target.frame, named["sheet_name"], Get(named, "na_rep", Str("")),
               Get(named, "float_format", PyNone), Get(named, "header", Bool(true)),
               Get(named, "index", Bool(true)), Get(named, "merge_cells", Bool(true)),
               Get(named, "inf_rep", Str("inf")), styled)
  }

  /** The per-call overrides win over the output configuration, which wins
      over the default: for the sheet name the default is the relation
      identifier, for every other option its fixed default. */
  lemma OverridesWin(output: map<string, Value>, overrides: map<string, Value>, target: Target, styled: bool)
    ensures var w := SheetFor(Merge(output, overrides), target, styled);
            && w.sheetName == (if "sheet_name" in overrides then overrides["sheet_name"]
                               else if "sheet_name" in output then output["sheet_name"]
                               else Str(target.identifier))
            && w.naRep == (if "na_rep" in overrides then overrides["na_rep"]
                           else Get(output, "na_rep", Str("")))
            && w.floatFormat == (if "float_format" in overrides then overrides["float_format"]
                                 else Get(output, "float_format", PyNone))
            && w.header == (if "header" in overrides then overrides["header"]
                            else Get(output, "header", Bool(true)))
            && w.index == (if "index" in overrides then overrides["index"]
                           else Get(output, "index", Bool(true)))
            && w.mergeCells == (if "merge_cells" in overrides then overrides["merge_cells"]
                                else Get(output, "merge_cells", Bool(true)))
            && w.infRep == (if "inf_rep" in overrides then overrides["inf_rep"]
                            else Get(output, "inf_rep", Str("inf")))
  {
  }

  // ---------------------------------------------------------------------
  // The plugin's state and its three operations as functions of it

  /** Everything the plugin reads or changes: its configuration, the process
      environment, the library-wide header style, the writer, the sheets
      written, the lines logged at close, and whether the object is finalized. */
  datatype State = State(config: map<string, Value>, initialized: bool,
                         env: map<string, string>, headerStyled: bool,
                         writer: WriterState, sheets: seq<SheetWrite>,
                         log: seq<Value>, disposed: bool)

  /** The state after an operation, and how the operation ended. */
  datatype Step = Step(state: State, outcome: Outcome)

  /** A new plugin object in a process with environment `env` and header style `styled`. */
  function Fresh(env: map<string, string>, styled: bool): (s: State)
    ensures ValidState(s)
  {
    State(map[], false, env, styled, Absent, [], [], false)
  }

  /** What holds of every state a plugin object can reach. */
  ghost predicate ValidState(s: State) {
    && (!s.writer.Absent? ==> s.initialized)
    && (s.writer.Closed? ==> s.disposed)
    && (s.sheets != [] ==> !s.writer.Absent?)
    && |s.log| == (if s.writer.Closed? then 1 else 0)
  }

  /** `Plugin.initialize`: the configuration is stored before it is checked. */
  function InitializeStep(s: State, config: map<string, Value>): (r: Step)
    requires !s.disposed
    ensures r.state.config == config && r.state.initialized
    ensures r.state.writer == s.writer && r.state.sheets == s.sheets && r.state.log == s.log
    ensures r.state.headerStyled == s.headerStyled && r.state.disposed == s.disposed
    ensures r.outcome == Raised(AssertionError) <==> !OutputValid(config)
    ensures !OutputValid(config) ==> r.state.env == s.env
    ensures r.outcome.Ok? <==> OutputValid(config) && CredentialsAreStrings(config)
    ensures r.outcome.Ok? ==> ExportedFrom(s.env, r.state.env, config)
    ensures OthersKept(s.env, r.state.env, CredentialVars)
    ensures ValidState(s) ==> ValidState(r.state)
  {
    var stored := s.(config := config, initialized := true);
    if !OutputValid(config) then Step(stored, Raised(AssertionError))
    else
      var exported := ExportCredentials(s.env, config);
      Step(stored.(env := exported.env), exported.outcome)
  }

  /** The overrides of a target (`{}` when it has none). */
  function Overrides(target: Target): Value {
    Get(target.config, "overrides", Dict(map[]))
  }

  /** Store succeeds exactly when the plugin is initialized with an `output`
      mapping that names a file (or the writer already exists) and the
      target's overrides are a mapping. */
  predicate StoreSucceeds(s: State, target: Target) {
    && s.initialized
    && "output" in s.config
    && s.config["output"].Dict?
    && (s.writer.Absent? ==> "file" in s.config["output"].entries)
    && Overrides(target).Dict?
  }

  /** `Plugin.store`. */
  function StoreStep(s: State, target: Target): (r: Step)
    requires !s.disposed
    ensures r.state.config == s.config && r.state.initialized == s.initialized && r.state.env == s.env
    ensures r.state.log == s.log && !r.state.disposed
    // an existing writer is reused, and header styling is then not looked at again
    ensures !s.writer.Absent? ==> r.state.writer == s.writer && r.state.headerStyled == s.headerStyled
    // a writer is only ever created from the output configuration
    ensures s.writer.Absent? && !r.state.writer.Absent? ==>
              HasOutputFile(s.config) && r.state.writer == Open(NewWriter(OutputConfig(s.config)))
              && r.state.headerStyled == (s.headerStyled && !HeaderStylingOff(OutputConfig(s.config)))
    ensures s.writer.Absent? && r.state.writer.Absent? ==> r.state.headerStyled == s.headerStyled
    ensures s.writer.Absent? && s.initialized && HasOutputFile(s.config) ==> r.state.writer.Open?
    ensures r.outcome.Ok? <==> StoreSucceeds(s, target)
    ensures r.outcome.Raised? ==> r.state.sheets == s.sheets
    ensures r.outcome.Ok? ==>
              && !r.state.writer.Absent?
              && r.state.sheets == s.sheets + [SheetFor(Merge(s.config["output"].entries, Overrides(target).entries),
                                                        target, r.state.headerStyled)]
    ensures ValidState(s) ==> ValidState(r.state)
  {
    if !s.initialized then Step(s, Raised(AttributeError("_config")))
    else if "output" !in s.config then Step(s, Raised(KeyError("output")))
    else
      var output := s.config["output"];
      if s.writer.Absent? then
        if !output.Dict? then Step(s, Raised(TypeError))
        else if "file" !in output.entries then Step(s, Raised(KeyError("file")))
        else
          var created := s.(writer := Open(NewWriter(output.entries)),
                           headerStyled := s.headerStyled && !HeaderStylingOff(output.entries));
          WriteSheet(created, output, target)
      else WriteSheet(s, output, target)
  }

  /** The part of `Plugin.store` after the writer exists: merge, name, write. */
  function WriteSheet(s: State, output: Value, target: Target): Step {
    if !output.Dict? then Step(s, Raised(TypeError))
    else
      var overrides := Overrides(target);
      if !overrides.Dict? then Step(s, Raised(TypeError))
      else
        var effective := Merge(output.entries, overrides.entries);
        Step(s.(sheets := s.sheets + [SheetFor(effective, target, s.headerStyled)]), Ok)
  }

  /** `Plugin.__del__`: the output file is looked up for the log line before
      the writer is closed, so a failed lookup leaves the writer open. */
  function TeardownStep(s: State): (r: Step)
    requires !s.disposed
    ensures r.state.disposed
    ensures r.state.config == s.config && r.state.initialized == s.initialized && r.state.env == s.env
    ensures r.state.headerStyled == s.headerStyled && r.state.sheets == s.sheets
    ensures s.writer.Absent? ==> r.outcome.Ok? && r.state.writer.Absent? && r.state.log == s.log
    ensures !s.writer.Absent? && HasOutputFile(s.config) ==>
              && r.outcome.Ok?
              && r.state.writer == Closed(s.writer.writer)
              && r.state.log == s.log + [OutputConfig(s.config)["file"]]
    ensures !s.writer.Absent? && !HasOutputFile(s.config) ==>
              r.outcome.Raised? && r.state.writer == s.writer && r.state.log == s.log
    ensures ValidState(s) ==> ValidState(r.state)
  {
    var finalized := s.(disposed := true);
    if s.writer.Absent? then Step(finalized, Ok)
    else if "output" !in s.config then Step(finalized, Raised(KeyError("output")))
    else if !s.config["output"].Dict? then Step(finalized, Raised(TypeError))
    else if "file" !in s.config["output"].entries then Step(finalized, Raised(KeyError("file")))
    else
      var file := s.config["output"].entries["file"];
      Step(finalized.(writer := Closed(s.writer.writer), log := s.log + [file]), Ok)
  }

  // ---------------------------------------------------------------------
  // Properties of a run of store calls

  /** The state after storing each target in turn; a call that raises leaves
      its state behind and the next call goes on from there. */
  function StoreAll(s: State, targets: seq<Target>): (final: State)
    requires !s.disposed
    ensures final.config == s.config && final.initialized == s.initialized && final.env == s.env
    ensures final.log == s.log && !final.disposed
    ensures |s.sheets| <= |final.sheets| && final.sheets[..|s.sheets|] == s.sheets
    ensures ValidState(s) ==> ValidState(final)
    decreases |targets|
  {
    if targets == [] then s
    else StoreAll(StoreStep(s, targets[0]).state, targets[1..])
  }

  /** At most one writer is ever created: once one exists every later store
      reuses it, and when none existed the one that appears is the writer the
      output configuration describes. With an output file configured, the
      first store creates it. */
  lemma {:induction false} WriterCreatedAtMostOnce(s: State, targets: seq<Target>)
    requires !s.disposed
    ensures !s.writer.Absent? ==> StoreAll(s, targets).writer == s.writer
    ensures s.writer.Absent? && !StoreAll(s, targets).writer.Absent? ==>
              HasOutputFile(s.config) && StoreAll(s, targets).writer == Open(NewWriter(OutputConfig(s.config)))
    ensures s.writer.Absent? && s.initialized && HasOutputFile(s.config) && targets != [] ==>
              StoreAll(s, targets).writer == Open(NewWriter(OutputConfig(s.config)))
    decreases |targets|
  {
    if targets != [] {
      var next := StoreStep(s, targets[0]).state;
      WriterCreatedAtMostOnce(next, targets[1..]);
    }
  }

  /** Header styling is decided once, when the writer is created, and never
      switched back on: every sheet written carries the default header style
      only if the style was in force before the run and, when the run created
      the writer, the output configuration did not switch it off. */
  lemma {:induction false} HeaderStylingDecidedAtCreation(s: State, targets: seq<Target>)
    requires !s.disposed
    ensures !s.writer.Absent? ==> StoreAll(s, targets).headerStyled == s.headerStyled
    ensures StoreAll(s, targets).headerStyled ==> s.headerStyled
    ensures var final := StoreAll(s, targets);
            forall i :: |s.sheets| <= i < |final.sheets| && final.sheets[i].styledHeader ==>
              && s.headerStyled
              && !(s.writer.Absent? && HasOutputFile(s.config) && HeaderStylingOff(OutputConfig(s.config)))
    decreases |targets|
  {
    if targets != [] {
      var step := StoreStep(s, targets[0]);
      var next := step.state;
      HeaderStylingDecidedAtCreation(next, targets[1..]);
      var final := StoreAll(s, targets);
      assert final == StoreAll(next, targets[1..]);
      forall i | |s.sheets| <= i < |final.sheets| && final.sheets[i].styledHeader
        ensures s.headerStyled
        ensures !(s.writer.Absent? && HasOutputFile(s.config) && HeaderStylingOff(OutputConfig(s.config)))
      {
        if i < |next.sheets| {
          // the sheet written by this first call
          assert final.sheets[..|next.sheets|] == next.sheets;
          assert final.sheets[i] == next.sheets[i];
          assert step.outcome.Ok? && i == |s.sheets|;
          assert next.sheets[i].styledHeader == next.headerStyled;
        }
      }
    }
  }

  /** The whole life of a plugin with a valid `output`: initialize, any number
      of stores, teardown. The writer is created exactly when some store ran,
      and then teardown closes it and logs the output file exactly once;
      without any store teardown closes nothing and logs nothing. */
  lemma Lifecycle(env: map<string, string>, styled: bool, config: map<string, Value>, targets: seq<Target>)
    requires HasOutputFile(config) && CredentialsAreStrings(config)
    ensures var init := InitializeStep(Fresh(env, styled), config);
            var down := TeardownStep(StoreAll(init.state, targets));
            && init.outcome.Ok?
            && down.outcome.Ok?
            && (targets == [] ==> down.state.writer.Absent? && down.state.log == [])
            && (targets != [] ==> && down.state.writer == Closed(NewWriter(OutputConfig(config)))
                                  && down.state.log == [OutputConfig(config)["file"]])
  {
    var init := InitializeStep(Fresh(env, styled), config);
    WriterCreatedAtMostOnce(init.state, targets);
  }

  // ---------------------------------------------------------------------
  // The plugin object

  /** A plugin object. `env` and `headerStyled` stand for process-wide state
      (the environment variables and the formatter's class-level header
      style); they live here so that their changes can be stated. */
  class Plugin {
    var config: map<string, Value>
    var initialized: bool
    var env: map<string, string>
    var headerStyled: bool
    var writer: WriterState
    var sheets: seq<SheetWrite>
    var log: seq<Value>
    var disposed: bool

    /** The object's state as a value. */
    ghost function Snapshot(): State
      reads this
    {
      State(config, initialized, env, headerStyled, writer, sheets, log, disposed)
    }

    ghost predicate Valid()
      reads this
    {
      ValidState(Snapshot())
    }

    constructor(env0: map<string, string>, styled: bool)
      ensures Valid() && Snapshot() == Fresh(env0, styled)
    {
      config, initialized := map[], false;
      env, headerStyled := env0, styled;
      writer, sheets, log, disposed := Absent, [], [], false;
    }

    method Initialize(pluginConfig: map<string, Value>) returns (outcome: Outcome)
      requires Valid() && !disposed
      modifies this
      ensures Valid()
      ensures Step(Snapshot(), outcome) == InitializeStep(old(Snapshot()), pluginConfig)
    {
      config := pluginConfig;
      initialized := true;
      if "output" in pluginConfig {
        var output := pluginConfig["output"];
        if !output.Dict? || "file" !in output.entries {
          return Raised(AssertionError);
        }
      }
      if AccessKeyIdKey in pluginConfig {
        var v := pluginConfig[AccessKeyIdKey];
        if !v.Str? { return Raised(TypeError); }
        env := env[AccessKeyIdVar := v.s];
      }
      if SecretKeyKey in pluginConfig {
        var v := pluginConfig[SecretKeyKey];
        if !v.Str? { return Raised(TypeError); }
        env := env[SecretKeyVar := v.s];
      }
      if RegionKey in pluginConfig {
        var v := pluginConfig[RegionKey];
        if !v.Str? { return Raised(TypeError); }
        env := env[RegionVar := v.s];
      }
      return Ok;
    }

    method Store(target: Target) returns (outcome: Outcome)
      requires Valid() && !disposed
      modifies this
      ensures Valid()
      ensures Step(Snapshot(), outcome) == StoreStep(old(Snapshot()), target)
    {
      if !initialized { return Raised(AttributeError("_config")); }
      if "output" !in config { return Raised(KeyError("output")); }
      var output := config["output"];
      if writer.Absent? {
        if !output.Dict? { return Raised(TypeError); }
        if "file" !in output.entries { return Raised(KeyError("file")); }
        writer := Open(NewWriter(output.entries));
        if "header_styling" in output.entries && EqualsFalse(output.entries["header_styling"]) {
          headerStyled := false;
        }
      }
      if !output.Dict? { return Raised(TypeError); }
      var overrides := Get(target.config, "overrides", Dict(map[]));
      if !overrides.Dict? { return Raised(TypeError); }
      var effective := Merge(output.entries, overrides.entries);
      if "sheet_name" !in effective {
        effective := effective["sheet_name" := Str(target.identifier)];
      }
      sheets := sheets + [SheetWrite(target.frame, effective["sheet_name"],
                                     Get(effective, "na_rep", Str("")),
                                     Get(effective, "float_format", PyNone),
                                     Get(effective, "header", Bool(true)),
                                     Get(effective, "index", Bool(true)),
                                     Get(effective, "merge_cells", Bool(true)),
                                     Get(effective, "inf_rep", Str("inf")),
                                     headerStyled)];
      return Ok;
    }

    /** Finalization: closes the writer if one was created. */
    method Teardown() returns (outcome: Outcome)
      requires Valid() && !disposed
      modifies this
      ensures Valid()
      ensures Step(Snapshot(), outcome) == TeardownStep(old(Snapshot()))
    {
      disposed := true;
      if writer.Absent? { return Ok; }
      if "output" !in config { return Raised(KeyError("output")); }
      var output := config["output"];
      if !output.Dict? { return Raised(TypeError); }
      if "file" !in output.entries { return Raised(KeyError("file")); }
      log := log + [output.entries["file"]];
      writer := Closed(writer.writer);
      return Ok;
    }
  }
}
