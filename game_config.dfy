/**
 * The Godot project configuration (`game_config.rs`): its records, how serde reads them from
 * and writes them to named fields, and the build context that merges the configuration with
 * the project and output paths and renders the two build scripts from it.
 */
module GameConfig {
  import opened Results
  import opened TinyTemplate
  import opened Templates

  /** Rust's `i32`. */
  newtype Int32 = x: int | -0x8000_0000 <= x < 0x8000_0000

  datatype GodotPckInfo = GodotPckInfo(name: string, exportPresetName: string)

  datatype GodotGameInfoExtraFile = GodotGameInfoExtraFile(from: string, to: string)

  datatype GodotGameInfo = GodotGameInfo(
    steamAppId: Int32,
    steamDepotId: Int32,
    steamBranch: string,
    steamAccountName: string,
    engineBinariesPath: string,
    extraFiles: seq<GodotGameInfoExtraFile>,
    editorPath: string,
    files: seq<string>,
    pcks: seq<GodotPckInfo>)

  /** The closed set of project types, selected by the `game_type` tag. */
  datatype GameInfoType = Godot(info: GodotGameInfo)

  datatype ConfigError =
    | MissingField(name: string)
    | InvalidValue(name: string)
    | UnknownVariant(tag: Value)

  /** The keys a configuration must give. */
  const REQUIRED_KEYS: set<string> :=
    {"steam_app_id", "steam_depot_id", "steam_branch", "steam_account_name",
     "engine_binaries_path", "editor_path"}

  /** The keys that default to an empty sequence when absent. */
  const OPTIONAL_KEYS: set<string> := {"extra_files", "files", "pcks"}

  // ---- Serialisation ----

  function PckValue(p: GodotPckInfo): Value {
    Table(map["name" := Str(p.name), "export_preset_name" := Str(p.exportPresetName)])
  }

  function ExtraFileValue(f: GodotGameInfoExtraFile): Value {
    Table(map["from" := Str(f.from), "to" := Str(f.to)])
  }

  function PckValues(ps: seq<GodotPckInfo>): (vs: seq<Value>)
    ensures |vs| == |ps| && forall i | 0 <= i < |ps| :: vs[i] == PckValue(ps[i])
  {
    if ps == [] then [] else [PckValue(ps[0])] + PckValues(ps[1..])
  }

  function ExtraFileValues(fs: seq<GodotGameInfoExtraFile>): (vs: seq<Value>)
    ensures |vs| == |fs| && forall i | 0 <= i < |fs| :: vs[i] == ExtraFileValue(fs[i])
  {
    if fs == [] then [] else [ExtraFileValue(fs[0])] + ExtraFileValues(fs[1..])
  }

  function StrValues(ss: seq<string>): (vs: seq<Value>)
    ensures |vs| == |ss| && forall i | 0 <= i < |ss| :: vs[i] == Str(ss[i])
  {
    if ss == [] then [] else [Str(ss[0])] + StrValues(ss[1..])
  }

  /** The fields of a `GodotGameInfo`, as serde writes them: one per record field, by its Rust name. */
  function InfoFields(info: GodotGameInfo): (m: Context)
    ensures m.Keys == REQUIRED_KEYS + OPTIONAL_KEYS
  {
    map[
      "steam_app_id" := Int(info.steamAppId as int),
      "steam_depot_id" := Int(info.steamDepotId as int),
      "steam_branch" := Str(info.steamBranch),
      "steam_account_name" := Str(info.steamAccountName),
      "engine_binaries_path" := Str(info.engineBinariesPath),
      "extra_files" := List(ExtraFileValues(info.extraFiles)),
      "editor_path" := Str(info.editorPath),
      "files" := List(StrValues(info.files)),
      "pcks" := List(PckValues(info.pcks))
    ]
  }

  /** A tagged configuration as serde writes it: the variant's fields and the `game_type` tag. */
  function SerializeGameConfig(config: GameInfoType): Context {
    InfoFields(config.info)["game_type" := Str("Godot")]
  }

  /**
   * The fields a template rendered against a build context can see: the configuration's fields
   * flattened, plus the project path and the output path. The template registry is not among them.
   */
  function ContextFields(info: GodotGameInfo, gamePath: string, gameOutputPath: string): (m: Context)
    ensures "steam_app_id" in m && m["steam_app_id"] == Int(info.steamAppId as int)
    ensures "steam_depot_id" in m && m["steam_depot_id"] == Int(info.steamDepotId as int)
    ensures "steam_branch" in m && m["steam_branch"] == Str(info.steamBranch)
    ensures "game_path" in m && m["game_path"] == Str(gamePath)
    ensures "game_output_path" in m && m["game_output_path"] == Str(gameOutputPath)
  {
    InfoFields(info)["game_path" := Str(gamePath)]["game_output_path" := Str(gameOutputPath)]
  }

  /**
   * A build context shows exactly the configuration's own fields, unchanged, and the two paths;
   * the template registry is not among them.
   */
  lemma ContextFieldsKeys(info: GodotGameInfo, gamePath: string, gameOutputPath: string)
    ensures ContextFields(info, gamePath, gameOutputPath).Keys ==
            REQUIRED_KEYS + OPTIONAL_KEYS + {"game_path", "game_output_path"}
    ensures forall k | k in InfoFields(info) :: ContextFields(info, gamePath, gameOutputPath)[k] == InfoFields(info)[k]
  {
    var m := InfoFields(info);
    assert "game_path" !in m && "game_output_path" !in m by {
      assert "game_path" !in REQUIRED_KEYS + OPTIONAL_KEYS;
      assert "game_output_path" !in REQUIRED_KEYS + OPTIONAL_KEYS;
    }
    assert ContextFields(info, gamePath, gameOutputPath) == m["game_path" := Str(gamePath)]["game_output_path" := Str(gameOutputPath)];
  }

  // ---- Deserialisation ----

  function Field(raw: Context, key: string): Result<Value, ConfigError> {
    if key in raw then Ok(raw[key]) else Err(MissingField(key))
  }

  function ParseInt32(raw: Context, key: string): Result<Int32, ConfigError> {
    var v :- Field(raw, key);
    if v.Int? && -0x8000_0000 <= v.i < 0x8000_0000 then Ok(v.i as Int32) else Err(InvalidValue(key))
  }

  function ParseString(raw: Context, key: string): Result<string, ConfigError> {
    var v :- Field(raw, key);
    if v.Str? then Ok(v.s) else Err(InvalidValue(key))
  }

  function ParsePck(v: Value): Result<GodotPckInfo, ConfigError> {
    if !v.Table? then Err(InvalidValue("pcks"))
    else
      var name :- ParseString(v.fields, "name");
      var preset :- ParseString(v.fields, "export_preset_name");
      Ok(GodotPckInfo(name, preset))
  }

  function ParseExtraFile(v: Value): Result<GodotGameInfoExtraFile, ConfigError> {
    if !v.Table? then Err(InvalidValue("extra_files"))
    else
      var from :- ParseString(v.fields, "from");
      var to :- ParseString(v.fields, "to");
      Ok(GodotGameInfoExtraFile(from, to))
  }

  function ParsePcks(vs: seq<Value>): Result<seq<GodotPckInfo>, ConfigError> {
    if vs == [] then Ok([])
    else
      var p :- ParsePck(vs[0]);
      var rest :- ParsePcks(vs[1..]);
      Ok([p] + rest)
  }

  function ParseExtraFiles(vs: seq<Value>): Result<seq<GodotGameInfoExtraFile>, ConfigError> {
    if vs == [] then Ok([])
    else
      var f :- ParseExtraFile(vs[0]);
      var rest :- ParseExtraFiles(vs[1..]);
      Ok([f] + rest)
  }

  function ParseStrings(vs: seq<Value>): Result<seq<string>, ConfigError> {
    if vs == [] then Ok([])
    else if !vs[0].Str? then Err(InvalidValue("files"))
    else
      var rest :- ParseStrings(vs[1..]);
      Ok([vs[0].s] + rest)
  }

  /** An absent list field is empty; a present one must be a list. */
  function ListField(raw: Context, key: string): Result<seq<Value>, ConfigError> {
    if key !in raw then Ok([])
    else if raw[key].List? then Ok(raw[key].items)
    else Err(InvalidValue(key))
  }

  /** Reads a `GodotGameInfo` from named fields; fields of other names are ignored. */
  function ParseGodotGameInfo(raw: Context): Result<GodotGameInfo, ConfigError> {
    var appId :- ParseInt32(raw, "steam_app_id");
    var depotId :- ParseInt32(raw, "steam_depot_id");
    var branch :- ParseString(raw, "steam_branch");
    var account :- ParseString(raw, "steam_account_name");
    var engine :- ParseString(raw, "engine_binaries_path");
    var extraValues :- ListField(raw, "extra_files");
    var extraFiles :- ParseExtraFiles(extraValues);
    var editor :- ParseString(raw, "editor_path");
    var fileValues :- ListField(raw, "files");
    var files :- ParseStrings(fileValues);
    var pckValues :- ListField(raw, "pcks");
    var pcks :- ParsePcks(pckValues);
    Ok(GodotGameInfo(appId, depotId, branch, account, engine, extraFiles, editor, files, pcks))
  }

  /** Reads a tagged configuration: the `game_type` tag selects the variant. */
  function ParseGameConfig(raw: Context): Result<GameInfoType, ConfigError> {
    if "game_type" !in raw then Err(MissingField("game_type"))
    else if raw["game_type"] != Str("Godot") then Err(UnknownVariant(raw["game_type"]))
    else
      var info :- ParseGodotGameInfo(raw);
      Ok(Godot(info))
  }

  lemma {:induction false} PcksRoundTrip(ps: seq<GodotPckInfo>)
    ensures ParsePcks(PckValues(ps)) == Ok(ps)
  {
    if ps != [] {
      PcksRoundTrip(ps[1..]);
      assert PckValues(ps)[1..] == PckValues(ps[1..]);
      assert [ps[0]] + ps[1..] == ps;
    }
  }

  lemma {:induction false} ExtraFilesRoundTrip(fs: seq<GodotGameInfoExtraFile>)
    ensures ParseExtraFiles(ExtraFileValues(fs)) == Ok(fs)
  {
    if fs != [] {
      ExtraFilesRoundTrip(fs[1..]);
      assert ExtraFileValues(fs)[1..] == ExtraFileValues(fs[1..]);
      assert [fs[0]] + fs[1..] == fs;
    }
  }

  lemma {:induction false} StringsRoundTrip(ss: seq<string>)
    ensures ParseStrings(StrValues(ss)) == Ok(ss)
  {
    if ss != [] {
      StringsRoundTrip(ss[1..]);
      assert StrValues(ss)[1..] == StrValues(ss[1..]);
      assert [ss[0]] + ss[1..] == ss;
    }
  }

  /** A table holding each field of `info` under its name reads back as `info`. */
  lemma ParseInfoFields(raw: Context, info: GodotGameInfo)
    requires "steam_app_id" in raw && raw["steam_app_id"] == Int(info.steamAppId as int)
    requires "steam_depot_id" in raw && raw["steam_depot_id"] == Int(info.steamDepotId as int)
    requires "steam_branch" in raw && raw["steam_branch"] == Str(info.steamBranch)
    requires "steam_account_name" in raw && raw["steam_account_name"] == Str(info.steamAccountName)
    requires "engine_binaries_path" in raw && raw["engine_binaries_path"] == Str(info.engineBinariesPath)
    requires "extra_files" in raw && raw["extra_files"] == List(ExtraFileValues(info.extraFiles))
    requires "editor_path" in raw && raw["editor_path"] == Str(info.editorPath)
    requires "files" in raw && raw["files"] == List(StrValues(info.files))
    requires "pcks" in raw && raw["pcks"] == List(PckValues(info.pcks))
    ensures ParseGodotGameInfo(raw) == Ok(info)
  {
    PcksRoundTrip(info.pcks);
    ExtraFilesRoundTrip(info.extraFiles);
    StringsRoundTrip(info.files);
    assert ParseInt32(raw, "steam_app_id") == Ok(info.steamAppId);
    assert ParseInt32(raw, "steam_depot_id") == Ok(info.steamDepotId);
  }

  /** Reading back what serde writes gives the same configuration. */
  lemma GameConfigRoundTrip(config: GameInfoType)
    ensures ParseGameConfig(SerializeGameConfig(config)) == Ok(config)
  {
    var info := config.info;
    var raw := SerializeGameConfig(config);
    assert raw == InfoFields(info)["game_type" := Str("Godot")];
    ParseInfoFields(raw, info);
  }

  /** The tag must name the one variant, and then the variant's fields are read from the same table. */
  lemma GameTypeSelectsVariant(raw: Context)
    ensures ParseGameConfig(raw).Ok? <==>
            "game_type" in raw && raw["game_type"] == Str("Godot") && ParseGodotGameInfo(raw).Ok?
    ensures ParseGameConfig(raw).Ok? ==> ParseGameConfig(raw).value.info == ParseGodotGameInfo(raw).value
  {
  }

  /** A missing required field is an error: no field outside the three lists has a default. */
  lemma RequiredFieldsHaveNoDefault(raw: Context, key: string)
    requires key in REQUIRED_KEYS && key !in raw
    ensures ParseGodotGameInfo(raw).Err?
  {
  }

  /** Leaving out the three list fields reads them as empty and changes nothing else. */
  lemma OptionalFieldsDefaultToEmpty(raw: Context)
    requires ParseGodotGameInfo(raw).Ok?
    ensures ParseGodotGameInfo(raw - OPTIONAL_KEYS) ==
            Ok(ParseGodotGameInfo(raw).value.(extraFiles := [], files := [], pcks := []))
  {
    var r := raw - OPTIONAL_KEYS;
    assert ListField(r, "extra_files") == Ok([]);
    assert ListField(r, "files") == Ok([]);
    assert ListField(r, "pcks") == Ok([]);
    forall k | k in REQUIRED_KEYS
      ensures Field(r, k) == Field(raw, k)
    {
    }
  }

  /** Fields of other names do not change what is read. */
  lemma UnknownFieldsIgnored(raw: Context, key: string, v: Value)
    requires key !in REQUIRED_KEYS + OPTIONAL_KEYS
    ensures ParseGodotGameInfo(raw[key := v]) == ParseGodotGameInfo(raw)
  {
    var r := raw[key := v];
    forall k | k in REQUIRED_KEYS + OPTIONAL_KEYS
      ensures Field(r, k) == Field(raw, k) && ListField(r, k) == ListField(raw, k)
    {
    }
  }

  // ---- Rendering the build scripts ----

  /** The app-build script rendered against a build context. */
  function AppDescriptor(info: GodotGameInfo, gamePath: string, gameOutputPath: string, fmt: Formatter)
    : Result<string, TemplateError>
  {
    Render(AppBuild, ContextFields(info, gamePath, gameOutputPath), fmt)
  }

  /** The depot-build script rendered against a build context. */
  function DepotDescriptor(info: GodotGameInfo, gamePath: string, gameOutputPath: string, fmt: Formatter)
    : Result<string, TemplateError>
  {
    Render(DepotBuild, ContextFields(info, gamePath, gameOutputPath), fmt)
  }

  /**
   * The app script carries the configured app id, branch and depot id and the context's output
   * path, in the skeleton's four slots; it fails only if the formatter refuses one of them.
   */
  lemma AppDescriptorFields(info: GodotGameInfo, gamePath: string, gameOutputPath: string, fmt: Formatter)
    ensures AppDescriptor(info, gamePath, gameOutputPath, fmt) ==
            (var appId :- fmt(Int(info.steamAppId as int));
             var branch :- fmt(Str(info.steamBranch));
             var output :- fmt(Str(gameOutputPath));
             var depotId :- fmt(Int(info.steamDepotId as int));
             Ok((APP_0 + Quote(appId)) + (APP_1 + Quote(branch)) + (APP_2 + Quote(output))
                + (APP_3 + Quote(depotId)) + APP_4))
  {
    AppBuildRender(ContextFields(info, gamePath, gameOutputPath), fmt);
  }

  /** The depot script carries the configured depot id in its one slot. */
  lemma DepotDescriptorFields(info: GodotGameInfo, gamePath: string, gameOutputPath: string, fmt: Formatter)
    ensures DepotDescriptor(info, gamePath, gameOutputPath, fmt) ==
            (var depotId :- fmt(Int(info.steamDepotId as int)); Ok((DEPOT_0 + Quote(depotId)) + DEPOT_1))
  {
    DepotBuildRender(ContextFields(info, gamePath, gameOutputPath), fmt);
  }

  /** The depot script depends on the depot id alone: not on the app id, branch or any path. */
  lemma DepotDescriptorIndependent(info1: GodotGameInfo, gamePath1: string, gameOutputPath1: string,
                                   info2: GodotGameInfo, gamePath2: string, gameOutputPath2: string,
                                   fmt: Formatter)
    requires info1.steamDepotId == info2.steamDepotId
    ensures DepotDescriptor(info1, gamePath1, gameOutputPath1, fmt) ==
            DepotDescriptor(info2, gamePath2, gameOutputPath2, fmt)
  {
    DepotDescriptorFields(info1, gamePath1, gameOutputPath1, fmt);
    DepotDescriptorFields(info2, gamePath2, gameOutputPath2, fmt);
  }

  /**
   * The app script depends on the app id, branch, depot id and output path alone: not on the
   * project path, the account, the tool paths or the file lists.
   */
  lemma AppDescriptorIndependent(info1: GodotGameInfo, gamePath1: string, gameOutputPath1: string,
                                 info2: GodotGameInfo, gamePath2: string, gameOutputPath2: string,
                                 fmt: Formatter)
    requires info1.steamAppId == info2.steamAppId && info1.steamBranch == info2.steamBranch
    requires info1.steamDepotId == info2.steamDepotId && gameOutputPath1 == gameOutputPath2
    ensures AppDescriptor(info1, gamePath1, gameOutputPath1, fmt) ==
            AppDescriptor(info2, gamePath2, gameOutputPath2, fmt)
  {
    AppDescriptorFields(info1, gamePath1, gameOutputPath1, fmt);
    AppDescriptorFields(info2, gamePath2, gameOutputPath2, fmt);
  }

  /**
   * The configuration merged with the project and output paths, bound to a template registry
   * holding the two build scripts. Nothing in it changes after construction.
   */
  class GodotBuildContext {
    const tinyTemplate: TemplateRegistry
    const gameInfo: GodotGameInfo
    const gamePath: string
    const gameOutputPath: string

    /** The registry holds the two fixed template sources, compiled, under their names. */
    ghost predicate Valid()
      reads tinyTemplate
    {
      && "app_build" in tinyTemplate.templates
      && "depot_build" in tinyTemplate.templates
      && Compile(APP_BUILD_TEMPLATE) == Ok(tinyTemplate.templates["app_build"])
      && Compile(APP_DEPOT_BUILD_TEMPLATE) == Ok(tinyTemplate.templates["depot_build"])
    }

    constructor Make(tinyTemplate: TemplateRegistry, gameInfo: GodotGameInfo, gamePath: string,
                     gameOutputPath: string)
      ensures this.tinyTemplate == tinyTemplate && this.gameInfo == gameInfo
      ensures this.gamePath == gamePath && this.gameOutputPath == gameOutputPath
    {
      this.tinyTemplate := tinyTemplate;
      this.gameInfo := gameInfo;
      this.gamePath := gamePath;
      this.gameOutputPath := gameOutputPath;
    }

    /**
     * Registers the app template, then the depot template, stopping at the first that fails
     * to compile; otherwise keeps the configuration and both paths unchanged.
     */
    static method New(gameInfo: GodotGameInfo, gamePath: string, gameOutputPath: string, fmt: Formatter)
      returns (r: Result<GodotBuildContext, TemplateError>)
      ensures r.Ok? <==> Compile(APP_BUILD_TEMPLATE).Ok? && Compile(APP_DEPOT_BUILD_TEMPLATE).Ok?
      ensures r.Err? ==> r.error == if Compile(APP_BUILD_TEMPLATE).Err? then Compile(APP_BUILD_TEMPLATE).error
                                    else Compile(APP_DEPOT_BUILD_TEMPLATE).error
      ensures r.Ok? ==> && fresh(r.value) && fresh(r.value.tinyTemplate) && r.value.Valid()
                        && r.value.gameInfo == gameInfo && r.value.gamePath == gamePath
                        && r.value.gameOutputPath == gameOutputPath && r.value.tinyTemplate.fmt == fmt
    {
      var tinyTemplate := new TemplateRegistry(fmt);
      var app := tinyTemplate.AddTemplate("app_build", APP_BUILD_TEMPLATE);
      if app.Err? {
        return Err(app.error);
      }
      var depot := tinyTemplate.AddTemplate("depot_build", APP_DEPOT_BUILD_TEMPLATE);
      if depot.Err? {
        return Err(depot.error);
      }
      var context := new GodotBuildContext.Make(tinyTemplate, gameInfo, gamePath, gameOutputPath);
      return Ok(context);
    }

    /** What a template rendered against this context sees. */
    function Fields(): Context {
      ContextFields(gameInfo, gamePath, gameOutputPath)
    }

    /** Renders the app-build script; the context is only read. */
    function CompileAppBuild(): (r: Result<string, TemplateError>)
      reads tinyTemplate
      requires Valid()
      ensures r == AppDescriptor(gameInfo, gamePath, gameOutputPath, tinyTemplate.fmt)
    {
      FixedTemplatesCompile();
      tinyTemplate.RenderNamed("app_build", Fields())
    }

    /** Renders the depot-build script; the context is only read. */
    function CompileDepotBuild(): (r: Result<string, TemplateError>)
      reads tinyTemplate
      requires Valid()
      ensures r == DepotDescriptor(gameInfo, gamePath, gameOutputPath, tinyTemplate.fmt)
    {
      FixedTemplatesCompile();
      tinyTemplate.RenderNamed("depot_build", Fields())
    }
  }
}
