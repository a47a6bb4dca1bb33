/**
 * The Godot build-and-upload run (`godot` in `main.rs`): export every pack with the editor,
 * stage the extra files, write the two build scripts to the temporary directory and hand the
 * app script to steamcmd.
 *
 * The outside world is an `Env` of outcomes supplied in advance (how each process ends, whether
 * each copy and write succeeds); the run's observable behaviour is the sequence of effects it
 * attempts, in order, and whether it completes or aborts. An exit status other than zero is only
 * reported; a process that cannot be started, a template error, a failed copy or a failed write
 * ends the run.
 */
module Orchestrator {
  import opened Results
  import opened TinyTemplate
  import opened Templates
  import opened GameConfig

  /** How a child process ended: it could not be started, or it exited with a status code. */
  datatype ProcOutcome = SpawnFailed | Exited(code: int)

  /** The outcomes the outside world will give, fixed before the run. */
  datatype Env = Env(
    exportStatus: nat -> ProcOutcome,  // the editor run for the i-th pack
    copyOk: nat -> bool,               // the copy of the i-th extra file
    tempDir: string,                   // the system temporary directory
    appWriteOk: bool,
    depotWriteOk: bool,
    steamcmdStatus: ProcOutcome)

  /** A line printed to standard output. */
  datatype Message =
    | ExportFailed(code: int)
    | SteamCmdFailed(code: int)
    | Branch(name: string)
    | AllOk

  /** Something the run does to the outside world, recorded when it is attempted. */
  datatype Effect =
    | Spawn(program: string, args: seq<string>)
    | Copy(from: string, to: string)
    | Write(path: string, contents: string)
    | Say(message: Message)

  /** Why a run ended early: an error returned with `?`, or a panic from `expect`. */
  datatype Fatal =
    | TemplateFault(error: TemplateError)
    | SpawnFault(program: string)
    | Panic(reason: string)

  datatype Outcome = Completed | Aborted(fatal: Fatal)

  /** The effects of part of a run, and the fault that stopped it there, if any. */
  datatype Trace = Trace(effects: seq<Effect>, fault: Option<Fatal>)

  const STEAMCMD := "steamcmd"
  const APP_SCRIPT_FILE := "lowly_build.vdf"
  const DEPOT_SCRIPT_FILE := "lowly_depot_build.vdf"
  const COPY_PANIC := "error copying"
  const APP_WRITE_PANIC := "Error writing app build script"
  const DEPOT_WRITE_PANIC := "Error writing app depot script"

  /** A file name joined onto a directory. */
  function Join(dir: string, name: string): string {
    dir + "/" + name
  }

  /** Runs `b` after `a`, unless `a` stopped the run. */
  function Then(a: Trace, b: Trace): Trace {
    if a.fault.Some? then a else Trace(a.effects + b.effects, b.fault)
  }

  function ExportArgs(gamePath: string, gameOutputPath: string, pck: GodotPckInfo): seq<string> {
    ["--headless", "--path", gamePath, "--export-pack", pck.exportPresetName, Join(gameOutputPath, pck.name)]
  }

  function UploadArgs(accountName: string, buildPath: string): seq<string> {
    ["+login", accountName, "+run_app_build", buildPath, "+exit"]
  }

  /** The editor export of the i-th pack. */
  function ExportStep(info: GodotGameInfo, gamePath: string, gameOutputPath: string, env: Env, i: nat): Trace
    requires i < |info.pcks|
  {
    var spawn := Spawn(info.editorPath, ExportArgs(gamePath, gameOutputPath, info.pcks[i]));
    match env.exportStatus(i)
    case SpawnFailed => Trace([spawn], Some(SpawnFault(info.editorPath)))
    case Exited(code) => Trace([spawn] + (if code == 0 then [] else [Say(ExportFailed(code))]), None)
  }

  /** The exports of the packs from the i-th on, in order. */
  function ExportsFrom(info: GodotGameInfo, gamePath: string, gameOutputPath: string, env: Env, i: nat): Trace
    requires i <= |info.pcks|
    decreases |info.pcks| - i
  {
    if i == |info.pcks| then Trace([], None)
    else Then(ExportStep(info, gamePath, gameOutputPath, env, i),
              ExportsFrom(info, gamePath, gameOutputPath, env, i + 1))
  }

  /** An extra file's source and destination, each a template rendered against the build context. */
  function StagePaths(file: GodotGameInfoExtraFile, ctx: Context, fmt: Formatter)
    : Result<(string, string), TemplateError>
  {
    var from :- Compile(file.from);
    var to :- Compile(file.to);
    var fromPath :- Render(from, ctx, fmt);
    var toPath :- Render(to, ctx, fmt);
    Ok((fromPath, toPath))
  }

  /** The source and destination paths of every extra file, in declaration order. */
  function StagedPaths(info: GodotGameInfo, gamePath: string, gameOutputPath: string, fmt: Formatter)
    : seq<Result<(string, string), TemplateError>>
  {
    seq(|info.extraFiles|, k requires 0 <= k < |info.extraFiles| =>
      StagePaths(info.extraFiles[k], ContextFields(info, gamePath, gameOutputPath), fmt))
  }

  /** The staging of the j-th extra file, given its rendered paths. */
  function StageStep(paths: seq<Result<(string, string), TemplateError>>, env: Env, j: nat): Trace
    requires j < |paths|
  {
    match paths[j]
    case Err(e) => Trace([], Some(TemplateFault(e)))
    case Ok(p) => Trace([Copy(p.0, p.1)], if env.copyOk(j) then None else Some(Panic(COPY_PANIC)))
  }

  /** The staging of the extra files from the j-th on, in order. */
  function StagesFrom(paths: seq<Result<(string, string), TemplateError>>, env: Env, j: nat): Trace
    requires j <= |paths|
    decreases |paths| - j
  {
    if j == |paths| then Trace([], None)
    else Then(StageStep(paths, env, j), StagesFrom(paths, env, j + 1))
  }

  /** Write the rendered app script, then the rendered depot script; rendering happens just before each write. */
  function WritesPhase(app: Result<string, TemplateError>, depot: Result<string, TemplateError>, env: Env): Trace {
    match app
    case Err(e) => Trace([], Some(TemplateFault(e)))
    case Ok(appText) =>
      var appWrite := Write(Join(env.tempDir, APP_SCRIPT_FILE), appText);
      if !env.appWriteOk then Trace([appWrite], Some(Panic(APP_WRITE_PANIC)))
      else
        match depot
        case Err(e) => Trace([appWrite], Some(TemplateFault(e)))
        case Ok(depotText) =>
          Trace([appWrite, Write(Join(env.tempDir, DEPOT_SCRIPT_FILE), depotText)],
                if env.depotWriteOk then None else Some(Panic(DEPOT_WRITE_PANIC)))
  }

  /** Run steamcmd on the app script, then report the branch and success. */
  function UploadPhase(info: GodotGameInfo, env: Env): Trace {
    var spawn := Spawn(STEAMCMD, UploadArgs(info.steamAccountName, Join(env.tempDir, APP_SCRIPT_FILE)));
    match env.steamcmdStatus
    case SpawnFailed => Trace([spawn], Some(SpawnFault(STEAMCMD)))
    case Exited(code) =>
      Trace([spawn] + (if code == 0 then [] else [Say(SteamCmdFailed(code))])
            + [Say(Branch(info.steamBranch)), Say(AllOk)], None)
  }

  /**
   * Everything after the build context exists, given the extra files' rendered paths and the
   * two rendered scripts.
   */
  function Pipeline(info: GodotGameInfo, gamePath: string, gameOutputPath: string,
                    paths: seq<Result<(string, string), TemplateError>>,
                    app: Result<string, TemplateError>, depot: Result<string, TemplateError>, env: Env): Trace
  {
    Then(Then(Then(ExportsFrom(info, gamePath, gameOutputPath, env, 0), StagesFrom(paths, env, 0)),
              WritesPhase(app, depot, env)),
         UploadPhase(info, env))
  }

  /** The outcome a trace ends in. */
  function OutcomeOf(t: Trace): Outcome {
    if t.fault.Some? then Aborted(t.fault.value) else Completed
  }

  /** The whole run: build the context, then the pipeline; the outcome and the effects attempted. */
  function Run(info: GodotGameInfo, gamePath: string, gameOutputPath: string, fmt: Formatter, env: Env)
    : (Outcome, seq<Effect>)
  {
    if Compile(APP_BUILD_TEMPLATE).Err? then (Aborted(TemplateFault(Compile(APP_BUILD_TEMPLATE).error)), [])
    else if Compile(APP_DEPOT_BUILD_TEMPLATE).Err? then
      (Aborted(TemplateFault(Compile(APP_DEPOT_BUILD_TEMPLATE).error)), [])
    else
      var t := Pipeline(info, gamePath, gameOutputPath, StagedPaths(info, gamePath, gameOutputPath, fmt),
                        AppDescriptor(info, gamePath, gameOutputPath, fmt),
                        DepotDescriptor(info, gamePath, gameOutputPath, fmt), env);
      (OutcomeOf(t), t.effects)
  }

  /** One more step of a phase that runs step by step, when that step does not stop it. */
  lemma ThenStep(done: seq<Effect>, step: Trace, rest: Trace)
    requires step.fault.None?
    ensures Then(Trace(done, None), Then(step, rest)) == Then(Trace(done + step.effects, None), rest)
  {
    assert done + (step.effects + rest.effects) == done + step.effects + rest.effects;
  }

  /** Exports every pack in order; a non-zero exit is reported, an editor that cannot start stops the loop. */
  method ExportPacks(context: GodotBuildContext, env: Env) returns (trace: seq<Effect>, fault: Option<Fatal>)
    ensures Trace(trace, fault) == ExportsFrom(context.gameInfo, context.gamePath, context.gameOutputPath, env, 0)
  {
    var info, gamePath, gameOutputPath := context.gameInfo, context.gamePath, context.gameOutputPath;
    ghost var exports := ExportsFrom(info, gamePath, gameOutputPath, env, 0);
    trace := [];
    var i := 0;
    while i < |info.pcks|
      invariant 0 <= i <= |info.pcks|
      invariant Then(Trace(trace, None), ExportsFrom(info, gamePath, gameOutputPath, env, i)) == exports
    {
      ghost var step, done := ExportStep(info, gamePath, gameOutputPath, env, i), trace;
      assert ExportsFrom(info, gamePath, gameOutputPath, env, i) ==
             Then(step, ExportsFrom(info, gamePath, gameOutputPath, env, i + 1));
      var pck := info.pcks[i];
      trace := trace + [Spawn(info.editorPath, ExportArgs(gamePath, gameOutputPath, pck))];
      var status := env.exportStatus(i);
      if status.SpawnFailed? {
        return trace, Some(SpawnFault(info.editorPath));
      }
      if status.code != 0 {
        trace := trace + [Say(ExportFailed(status.code))];
      }
      assert step.fault.None? && trace == done + step.effects;
      ThenStep(done, step, ExportsFrom(info, gamePath, gameOutputPath, env, i + 1));
      i := i + 1;
    }
    return trace, None;
  }

  /** Renders an extra file's two paths with a fresh registry holding its `from` and `to` templates. */
  method RenderStagePaths(context: GodotBuildContext, file: GodotGameInfoExtraFile, fmt: Formatter)
    returns (r: Result<(string, string), TemplateError>)
    ensures r == StagePaths(file, context.Fields(), fmt)
  {
    var ttFile := new TemplateRegistry(fmt);
    var added := ttFile.AddTemplate("from", file.from);
    if added.Err? {
      return Err(added.error);
    }
    added := ttFile.AddTemplate("to", file.to);
    if added.Err? {
      return Err(added.error);
    }
    var fromPath := ttFile.RenderNamed("from", context.Fields());
    if fromPath.Err? {
      return Err(fromPath.error);
    }
    var toPath := ttFile.RenderNamed("to", context.Fields());
    if toPath.Err? {
      return Err(toPath.error);
    }
    return Ok((fromPath.value, toPath.value));
  }

  /**
   * Copies every extra file in order, each from and to a path rendered by a fresh registry
   * against the build context; a template error or a failed copy stops the loop.
   */
  method StageExtraFiles(context: GodotBuildContext, fmt: Formatter, env: Env)
    returns (trace: seq<Effect>, fault: Option<Fatal>)
    ensures Trace(trace, fault) ==
            StagesFrom(StagedPaths(context.gameInfo, context.gamePath, context.gameOutputPath, fmt), env, 0)
  {
    var info, gamePath, gameOutputPath := context.gameInfo, context.gamePath, context.gameOutputPath;
    ghost var paths := StagedPaths(info, gamePath, gameOutputPath, fmt);
    ghost var staged := StagesFrom(paths, env, 0);
    trace := [];
    var j := 0;
    while j < |info.extraFiles|
      invariant 0 <= j <= |info.extraFiles|
      invariant Then(Trace(trace, None), StagesFrom(paths, env, j)) == staged
    {
      ghost var step, done := StageStep(paths, env, j), trace;
      assert StagesFrom(paths, env, j) == Then(step, StagesFrom(paths, env, j + 1));
      var rendered := RenderStagePaths(context, info.extraFiles[j], fmt);
      assert paths[j] == rendered;
      if rendered.Err? {
        return trace, Some(TemplateFault(rendered.error));
      }
      var fromPath, toPath := rendered.value.0, rendered.value.1;
      trace := trace + [Copy(fromPath, toPath)];
      if !env.copyOk(j) {
        return trace, Some(Panic(COPY_PANIC));
      }
      assert step.fault.None? && trace == done + step.effects;
      ThenStep(done, step, StagesFrom(paths, env, j + 1));
      assert Then(Trace(trace, None), StagesFrom(paths, env, j + 1)) == staged;
      j := j + 1;
    }
    return trace, None;
  }

  /** Renders and writes the app script, then the depot script, to the temporary directory. */
  method WriteScripts(context: GodotBuildContext, env: Env) returns (trace: seq<Effect>, fault: Option<Fatal>)
    requires context.Valid()
    ensures Trace(trace, fault) ==
            WritesPhase(AppDescriptor(context.gameInfo, context.gamePath, context.gameOutputPath, context.tinyTemplate.fmt),
                        DepotDescriptor(context.gameInfo, context.gamePath, context.gameOutputPath, context.tinyTemplate.fmt),
                        env)
  {
    var buildPath := Join(env.tempDir, APP_SCRIPT_FILE);
    var app := context.CompileAppBuild();
    if app.Err? {
      return [], Some(TemplateFault(app.error));
    }
    trace := [Write(buildPath, app.value)];
    if !env.appWriteOk {
      return trace, Some(Panic(APP_WRITE_PANIC));
    }
    var depot := context.CompileDepotBuild();
    if depot.Err? {
      return trace, Some(TemplateFault(depot.error));
    }
    trace := trace + [Write(Join(env.tempDir, DEPOT_SCRIPT_FILE), depot.value)];
    if !env.depotWriteOk {
      return trace, Some(Panic(DEPOT_WRITE_PANIC));
    }
    return trace, None;
  }

  /** Runs steamcmd on the app script; only a steamcmd that cannot start is fatal. */
  method Upload(context: GodotBuildContext, env: Env) returns (trace: seq<Effect>, fault: Option<Fatal>)
    ensures Trace(trace, fault) == UploadPhase(context.gameInfo, env)
  {
    var buildPath := Join(env.tempDir, APP_SCRIPT_FILE);
    trace := [Spawn(STEAMCMD, UploadArgs(context.gameInfo.steamAccountName, buildPath))];
    var status := env.steamcmdStatus;
    if status.SpawnFailed? {
      return trace, Some(SpawnFault(STEAMCMD));
    }
    if status.code != 0 {
      trace := trace + [Say(SteamCmdFailed(status.code))];
    }
    trace := trace + [Say(Branch(context.gameInfo.steamBranch)), Say(AllOk)];
    return trace, None;
  }

  /**
   * Builds the context, exports each pack, stages each extra file, writes both scripts and
   * uploads, stopping at the first fatal error.
   */
  method Godot(info: GodotGameInfo, gamePath: string, gameOutputPath: string, fmt: Formatter, env: Env)
    returns (outcome: Outcome, trace: seq<Effect>)
    ensures (outcome, trace) == Run(info, gamePath, gameOutputPath, fmt, env)
  {
    var built := GodotBuildContext.New(info, gamePath, gameOutputPath, fmt);
    if built.Err? {
      return Aborted(TemplateFault(built.error)), [];
    }
    var context := built.value;
    ghost var paths := StagedPaths(info, gamePath, gameOutputPath, fmt);
    var effects, fault := ExportPacks(context, env);
    trace := effects;
    ghost var done := ExportsFrom(info, gamePath, gameOutputPath, env, 0);
    if fault.None? {
      effects, fault := StageExtraFiles(context, fmt, env);
      trace := trace + effects;
    }
    done := Then(done, StagesFrom(paths, env, 0));
    assert Trace(trace, fault) == done;
    if fault.None? {
      effects, fault := WriteScripts(context, env);
      trace := trace + effects;
    }
    done := Then(done, WritesPhase(AppDescriptor(info, gamePath, gameOutputPath, fmt),
                                   DepotDescriptor(info, gamePath, gameOutputPath, fmt), env));
    assert Trace(trace, fault) == done;
    if fault.None? {
      effects, fault := Upload(context, env);
      trace := trace + effects;
    }
    done := Then(done, UploadPhase(info, env));
    assert Trace(trace, fault) == done;
    RunIsPipeline(info, gamePath, gameOutputPath, fmt, env);
    outcome := if fault.Some? then Aborted(fault.value) else Completed;
  }

  // ---- Properties of a run ----

  /** The processes a sequence of effects starts, in order. */
  function Spawns(effects: seq<Effect>): (s: seq<Effect>)
    ensures forall e <- s :: e.Spawn? && e in effects
  {
    if effects == [] then [] else (if effects[0].Spawn? then [effects[0]] else []) + Spawns(effects[1..])
  }

  lemma {:induction false} SpawnsAppend(a: seq<Effect>, b: seq<Effect>)
    ensures Spawns(a + b) == Spawns(a) + Spawns(b)
  {
    if a == [] {
      assert a + b == b;
    } else {
      assert (a + b)[1..] == a[1..] + b;
      SpawnsAppend(a[1..], b);
    }
  }

  /** One editor export per pack, in the order the packs are declared. */
  function ExportCommands(info: GodotGameInfo, gamePath: string, gameOutputPath: string): (cmds: seq<Effect>)
    ensures |cmds| == |info.pcks|
  {
    seq(|info.pcks|, k requires 0 <= k < |info.pcks| =>
      Spawn(info.editorPath, ExportArgs(gamePath, gameOutputPath, info.pcks[k])))
  }

  /** Every editor starts. */
  predicate ExportsStart(info: GodotGameInfo, env: Env) {
    forall k | 0 <= k < |info.pcks| :: env.exportStatus(k) != SpawnFailed
  }

  /** Every extra file's paths render and its copy succeeds. */
  predicate StagesSucceed(paths: seq<Result<(string, string), TemplateError>>, env: Env) {
    forall k | 0 <= k < |paths| :: paths[k].Ok? && env.copyOk(k)
  }

  /**
   * The exports from the i-th on stop exactly when an editor cannot start, and then with that
   * fault; the exit codes play no part.
   */
  lemma {:induction false} ExportsCompleteIff(info: GodotGameInfo, gamePath: string, gameOutputPath: string,
                                              env: Env, i: nat)
    requires i <= |info.pcks|
    ensures ExportsFrom(info, gamePath, gameOutputPath, env, i).fault.None? <==>
            forall k | i <= k < |info.pcks| :: env.exportStatus(k) != SpawnFailed
    ensures ExportsFrom(info, gamePath, gameOutputPath, env, i).fault.Some? ==>
            ExportsFrom(info, gamePath, gameOutputPath, env, i).fault == Some(SpawnFault(info.editorPath))
    decreases |info.pcks| - i
  {
    if i < |info.pcks| {
      ExportsCompleteIff(info, gamePath, gameOutputPath, env, i + 1);
    }
  }

  /**
   * The staging from the j-th file on stops exactly when a path fails to render or a copy fails;
   * a failed copy stops it with the "error copying" panic, a path with its template error.
   */
  lemma {:induction false} StagesCompleteIff(paths: seq<Result<(string, string), TemplateError>>, env: Env, j: nat)
    requires j <= |paths|
    ensures StagesFrom(paths, env, j).fault.None? <==>
            forall k | j <= k < |paths| :: paths[k].Ok? && env.copyOk(k)
    ensures StagesFrom(paths, env, j).fault.Some? ==>
            StagesFrom(paths, env, j).fault.value in {Panic(COPY_PANIC)} + set k | j <= k < |paths| && paths[k].Err? :: TemplateFault(paths[k].error)
    decreases |paths| - j
  {
    if j < |paths| {
      StagesCompleteIff(paths, env, j + 1);
    }
  }

  /**
   * An editor that starts and exits with a non-zero status is reported, and the exports go on:
   * when every editor from the i-th on starts, the exports complete and report each such status.
   */
  lemma {:induction false} ExportFailureReported(info: GodotGameInfo, gamePath: string, gameOutputPath: string,
                                                 env: Env, i: nat, k: nat)
    requires i <= k < |info.pcks|
    requires forall m | i <= m < |info.pcks| :: env.exportStatus(m) != SpawnFailed
    requires env.exportStatus(k).code != 0
    ensures ExportsFrom(info, gamePath, gameOutputPath, env, i).fault.None?
    ensures Say(ExportFailed(env.exportStatus(k).code)) in ExportsFrom(info, gamePath, gameOutputPath, env, i).effects
    decreases |info.pcks| - i
  {
    ExportsCompleteIff(info, gamePath, gameOutputPath, env, i);
    var step := ExportStep(info, gamePath, gameOutputPath, env, i);
    if i < k {
      ExportFailureReported(info, gamePath, gameOutputPath, env, i + 1, k);
    } else {
      assert step.effects[1] == Say(ExportFailed(env.exportStatus(k).code));
    }
  }

  /**
   * An extra file's paths render exactly when both its path templates compile and every
   * placeholder in either names a field the formatter accepts; a path that does not compile
   * fails with a parse error.
   */
  lemma StagePathsOkIff(file: GodotGameInfoExtraFile, ctx: Context, fmt: Formatter)
    ensures StagePaths(file, ctx, fmt).Ok? <==>
            && Compile(file.from).Ok? && Compile(file.to).Ok?
            && forall name | name in Holes(Compile(file.from).value) + Holes(Compile(file.to).value) ::
                 Lookup(ctx, fmt, name).Ok?
    ensures Compile(file.from).Err? || Compile(file.to).Err? ==>
            StagePaths(file, ctx, fmt).Err? && StagePaths(file, ctx, fmt).error.ParseError?
  {
  }

  /** When no editor fails to start, the exports start one editor per pack, in declaration order. */
  lemma {:induction false} ExportsInOrder(info: GodotGameInfo, gamePath: string, gameOutputPath: string,
                                          env: Env, i: nat)
    requires i <= |info.pcks|
    ensures ExportsFrom(info, gamePath, gameOutputPath, env, i).fault.None? ==>
            Spawns(ExportsFrom(info, gamePath, gameOutputPath, env, i).effects)
            == ExportCommands(info, gamePath, gameOutputPath)[i..]
    decreases |info.pcks| - i
  {
    if i < |info.pcks| {
      var step := ExportStep(info, gamePath, gameOutputPath, env, i);
      var rest := ExportsFrom(info, gamePath, gameOutputPath, env, i + 1);
      ExportsInOrder(info, gamePath, gameOutputPath, env, i + 1);
      if step.fault.None? && rest.fault.None? {
        var cmds := ExportCommands(info, gamePath, gameOutputPath);
        assert ExportsFrom(info, gamePath, gameOutputPath, env, i).effects == step.effects + rest.effects;
        SpawnsAppend(step.effects, rest.effects);
        assert step.effects == [cmds[i]] + step.effects[1..];
        SpawnsAppend([cmds[i]], step.effects[1..]);
        assert Spawns(step.effects) == [cmds[i]];
        assert cmds[i..] == [cmds[i]] + cmds[i + 1..];
      }
    }
  }

  /** When the staging completes, it copies every extra file once, in declaration order, between its rendered paths. */
  lemma {:induction false} StagesInOrder(paths: seq<Result<(string, string), TemplateError>>, env: Env, j: nat)
    requires j <= |paths|
    ensures var t := StagesFrom(paths, env, j);
            t.fault.None? ==>
              && |t.effects| == |paths| - j
              && forall k | j <= k < |paths| :: paths[k].Ok? && t.effects[k - j] == Copy(paths[k].value.0, paths[k].value.1)
    decreases |paths| - j
  {
    if j < |paths| {
      StagesInOrder(paths, env, j + 1);
    }
  }

  /** The exports only start editors and print. */
  lemma {:induction false} ExportEffectKinds(info: GodotGameInfo, gamePath: string, gameOutputPath: string,
                                             env: Env, i: nat)
    requires i <= |info.pcks|
    ensures forall e <- ExportsFrom(info, gamePath, gameOutputPath, env, i).effects ::
              e.Say? || (e.Spawn? && |e.args| == 6 && e.args[0] == "--headless")
    decreases |info.pcks| - i
  {
    if i < |info.pcks| {
      ExportEffectKinds(info, gamePath, gameOutputPath, env, i + 1);
    }
  }

  /** The staging only copies. */
  lemma {:induction false} StageEffectKinds(paths: seq<Result<(string, string), TemplateError>>, env: Env, j: nat)
    requires j <= |paths|
    ensures forall e <- StagesFrom(paths, env, j).effects :: e.Copy?
    decreases |paths| - j
  {
    if j < |paths| {
      StageEffectKinds(paths, env, j + 1);
    }
  }

  /** Building the context never fails: both fixed templates compile, so a run is its pipeline. */
  lemma RunIsPipeline(info: GodotGameInfo, gamePath: string, gameOutputPath: string, fmt: Formatter, env: Env)
    ensures var t := Pipeline(info, gamePath, gameOutputPath, StagedPaths(info, gamePath, gameOutputPath, fmt),
                              AppDescriptor(info, gamePath, gameOutputPath, fmt),
                              DepotDescriptor(info, gamePath, gameOutputPath, fmt), env);
            Run(info, gamePath, gameOutputPath, fmt, env) == (OutcomeOf(t), t.effects)
  {
    FixedTemplatesCompile();
  }

  /**
   * A pipeline completes exactly when every editor and steamcmd start, every extra file's paths
   * render and its copy succeeds, and both scripts render and are written. No exit code
   * appears: a process that starts and then fails is never fatal.
   */
  lemma PipelineCompletedIff(info: GodotGameInfo, gamePath: string, gameOutputPath: string,
                             paths: seq<Result<(string, string), TemplateError>>,
                             app: Result<string, TemplateError>, depot: Result<string, TemplateError>, env: Env)
    ensures Pipeline(info, gamePath, gameOutputPath, paths, app, depot, env).fault.None? <==>
            && ExportsStart(info, env)
            && StagesSucceed(paths, env)
            && app.Ok? && env.appWriteOk && depot.Ok? && env.depotWriteOk
            && env.steamcmdStatus.Exited?
  {
    ExportsCompleteIff(info, gamePath, gameOutputPath, env, 0);
    StagesCompleteIff(paths, env, 0);
  }

  /** The same, for a whole run: its outcome depends on which processes start and which steps succeed, never on an exit code. */
  lemma RunCompletedIff(info: GodotGameInfo, gamePath: string, gameOutputPath: string, fmt: Formatter, env: Env)
    ensures Run(info, gamePath, gameOutputPath, fmt, env).0 == Completed <==>
            && ExportsStart(info, env)
            && StagesSucceed(StagedPaths(info, gamePath, gameOutputPath, fmt), env)
            && AppDescriptor(info, gamePath, gameOutputPath, fmt).Ok? && env.appWriteOk
            && DepotDescriptor(info, gamePath, gameOutputPath, fmt).Ok? && env.depotWriteOk
            && env.steamcmdStatus.Exited?
  {
    RunIsPipeline(info, gamePath, gameOutputPath, fmt, env);
    PipelineCompletedIff(info, gamePath, gameOutputPath, StagedPaths(info, gamePath, gameOutputPath, fmt),
                         AppDescriptor(info, gamePath, gameOutputPath, fmt),
                         DepotDescriptor(info, gamePath, gameOutputPath, fmt), env);
  }

  /**
   * A failed copy of any extra file aborts the pipeline before either script is written and
   * before steamcmd is started.
   */
  lemma CopyFailureWritesNothing(info: GodotGameInfo, gamePath: string, gameOutputPath: string,
                                 paths: seq<Result<(string, string), TemplateError>>,
                                 app: Result<string, TemplateError>, depot: Result<string, TemplateError>,
                                 env: Env, j: nat)
    requires j < |paths| && !env.copyOk(j)
    ensures var t := Pipeline(info, gamePath, gameOutputPath, paths, app, depot, env);
            && t.fault.Some?
            && (forall e <- t.effects :: !e.Write?)
            && Spawn(STEAMCMD, UploadArgs(info.steamAccountName, Join(env.tempDir, APP_SCRIPT_FILE))) !in t.effects
  {
    StagesCompleteIff(paths, env, 0);
    ExportEffectKinds(info, gamePath, gameOutputPath, env, 0);
    StageEffectKinds(paths, env, 0);
    var early := Then(ExportsFrom(info, gamePath, gameOutputPath, env, 0), StagesFrom(paths, env, 0));
    assert early.fault.Some?;
    assert Pipeline(info, gamePath, gameOutputPath, paths, app, depot, env) == early;
  }

  /**
   * A completed pipeline does, in order: the exports, the copies, the app-script write to the
   * temporary directory, the depot-script write beside it, one steamcmd upload of the app
   * script, a report of a non-zero steamcmd status, the branch, and the success line.
   */
  lemma CompletedTrace(info: GodotGameInfo, gamePath: string, gameOutputPath: string,
                       paths: seq<Result<(string, string), TemplateError>>,
                       app: Result<string, TemplateError>, depot: Result<string, TemplateError>, env: Env)
    requires Pipeline(info, gamePath, gameOutputPath, paths, app, depot, env).fault.None?
    ensures app.Ok? && depot.Ok? && env.steamcmdStatus.Exited?
    ensures var buildPath := Join(env.tempDir, APP_SCRIPT_FILE);
            Pipeline(info, gamePath, gameOutputPath, paths, app, depot, env).effects ==
              ExportsFrom(info, gamePath, gameOutputPath, env, 0).effects
              + StagesFrom(paths, env, 0).effects
              + [Write(buildPath, app.value),
                 Write(Join(env.tempDir, DEPOT_SCRIPT_FILE), depot.value),
                 Spawn(STEAMCMD, UploadArgs(info.steamAccountName, buildPath))]
              + (if env.steamcmdStatus.code == 0 then [] else [Say(SteamCmdFailed(env.steamcmdStatus.code))])
              + [Say(Branch(info.steamBranch)), Say(AllOk)]
  {
    PipelineCompletedIff(info, gamePath, gameOutputPath, paths, app, depot, env);
    ExportsCompleteIff(info, gamePath, gameOutputPath, env, 0);
    StagesCompleteIff(paths, env, 0);
    var e := ExportsFrom(info, gamePath, gameOutputPath, env, 0).effects;
    var s := StagesFrom(paths, env, 0).effects;
    var w := WritesPhase(app, depot, env).effects;
    var u := UploadPhase(info, env).effects;
    assert Pipeline(info, gamePath, gameOutputPath, paths, app, depot, env).effects == e + s + w + u;
  }

  /**
   * A completed pipeline starts one editor per pack, in order, and then steamcmd exactly once;
   * with no packs, the upload is the only process started.
   */
  lemma CompletedRunSpawns(info: GodotGameInfo, gamePath: string, gameOutputPath: string,
                           paths: seq<Result<(string, string), TemplateError>>,
                           app: Result<string, TemplateError>, depot: Result<string, TemplateError>, env: Env)
    requires Pipeline(info, gamePath, gameOutputPath, paths, app, depot, env).fault.None?
    ensures Spawns(Pipeline(info, gamePath, gameOutputPath, paths, app, depot, env).effects) ==
            ExportCommands(info, gamePath, gameOutputPath)
            + [Spawn(STEAMCMD, UploadArgs(info.steamAccountName, Join(env.tempDir, APP_SCRIPT_FILE)))]
  {
    CompletedTrace(info, gamePath, gameOutputPath, paths, app, depot, env);
    ExportsCompleteIff(info, gamePath, gameOutputPath, env, 0);
    ExportsInOrder(info, gamePath, gameOutputPath, env, 0);
    StageEffectKinds(paths, env, 0);
    var e := ExportsFrom(info, gamePath, gameOutputPath, env, 0).effects;
    var s := StagesFrom(paths, env, 0).effects;
    var upload := Spawn(STEAMCMD, UploadArgs(info.steamAccountName, Join(env.tempDir, APP_SCRIPT_FILE)));
    var w: seq<Effect> := [Write(Join(env.tempDir, APP_SCRIPT_FILE), app.value),
                           Write(Join(env.tempDir, DEPOT_SCRIPT_FILE), depot.value)];
    var code := env.steamcmdStatus.code;
    var tail: seq<Effect> := (if code == 0 then [] else [Say(SteamCmdFailed(code))]) + [Say(Branch(info.steamBranch)), Say(AllOk)];
    var late := w + ([upload] + tail);
    assert Pipeline(info, gamePath, gameOutputPath, paths, app, depot, env).effects == e + s + late;
    var cmds := ExportCommands(info, gamePath, gameOutputPath);
    assert cmds[0..] == cmds;
    assert Spawns(e) == cmds;
    SpawnsNone(s);
    OnlySpawn(w, upload, tail);
    SpawnsAppend(e, s);
    SpawnsAppend(e + s, late);
    assert Spawns(e + s) == cmds;
  }

  /** A single process start among effects that start none. */
  lemma OnlySpawn(before: seq<Effect>, spawn: Effect, after: seq<Effect>)
    requires spawn.Spawn?
    requires forall e <- before :: !e.Spawn?
    requires forall e <- after :: !e.Spawn?
    ensures Spawns(before + ([spawn] + after)) == [spawn]
  {
    SpawnsNone(before);
    SpawnsNone(after);
    assert Spawns([spawn]) == [spawn] by {
      assert [spawn][1..] == [];
    }
    SpawnsAppend([spawn], after);
    SpawnsAppend(before, [spawn] + after);
  }

  lemma {:induction false} SpawnsNone(effects: seq<Effect>)
    requires forall e <- effects :: !e.Spawn?
    ensures Spawns(effects) == []
  {
    if effects != [] {
      SpawnsNone(effects[1..]);
    }
  }

  /**
   * The app script names its depot script `lowly_depot_build.vdf` beside the quoted depot id,
   * the very name the run writes the depot script to in the temporary directory.
   */
  lemma DepotScriptNameAgrees(info: GodotGameInfo, gamePath: string, gameOutputPath: string, fmt: Formatter)
    requires AppDescriptor(info, gamePath, gameOutputPath, fmt).Ok?
    ensures fmt(Int(info.steamDepotId as int)).Ok?
    ensures Contains(AppDescriptor(info, gamePath, gameOutputPath, fmt).value,
                     Quote(fmt(Int(info.steamDepotId as int)).value) + " " + Quote(DEPOT_SCRIPT_FILE))
  {
    var ctx := ContextFields(info, gamePath, gameOutputPath);
    assert Lookup(ctx, fmt, "steam_depot_id") == fmt(Int(info.steamDepotId as int));
    AppBuildDepotEntry(ctx, fmt, AppDescriptor(info, gamePath, gameOutputPath, fmt).value);
    assert DEPOT_SCRIPT_FILE == DEPOT_SCRIPT_NAME;
  }
}
