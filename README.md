# Lowly: build descriptors and the Godot upload run

Lowly builds a Godot game and uploads it to Steam. This project models its core in Dafny:

- **Build scripts.** The two fixed Steam build-script skeletons, the app-build script and the
  depot-build script, live in `templates.rs`.
- **Configuration and build context.** `game_config.rs` holds the project configuration records
  and the build context that merges a configuration with the project path and the output path.
  The build context fills the two skeletons through a micro-template registry.
- **The upload run.** The `godot` routine in `main.rs` does the following, in order:
  1. exports every pack with the Godot editor;
  2. copies the extra files, whose paths are themselves templates;
  3. writes the two rendered scripts to the temporary directory;
  4. hands the app script to `steamcmd`.

The project has five modules:

- **`Results`** holds the `Option` and `Result` types.
- **`TinyTemplate`** models the template engine.
  - A template source uses `{name}` for a placeholder and `\{` for a literal brace.
  - The source is compiled into literal characters and placeholders, then rendered against a
    context of serialised field values.
  - The formatter that turns a value into text is a parameter.
  - The class `TemplateRegistry` stands for the library object that holds named templates.
- **`Templates`** gives the two skeletons in compiled form.
  - Their template sources are those forms printed back.
  - The properties are proved once about the compiled forms: which placeholders appear, what
    the rendered text is, and what fixed text survives rendering.
- **`GameConfig`** holds the configuration records and their serialisation and reading back.
  - `GodotBuildContext` is a class whose static method `New` registers the two templates.
  - It has two render functions that only read it.
- **`Orchestrator`** models the `godot` routine.
  - It is a method over an environment of outcomes fixed in advance: how each spawned process
    ends, whether each copy and write succeeds, and the temporary directory.
  - The method records every effect it attempts (spawn, copy, write, printed line) and returns
    whether the run completed or aborted, and why.
  - Its contract ties it to the function `Run`, which is assembled from one function per phase.

The error policy of `godot` is deliberately uneven, and the model keeps it:

- **Only reported:** an exported pack or a `steamcmd` run that exits with a non-zero status.
- **Ends the run:** a process that cannot be started at all, a template that fails to compile
  or render, a failed copy, or a failed write.

## Model

| member | source | states |
|---|---|---|
| TinyTemplate.CompileRoundTrip | src/templates.rs:1-14 | A source that compiles is exactly the printing of its compiled form, and that form is well formed: a placeholder syntax with `\{` escapes loses nothing. |
| TinyTemplate.CompilePrint | src/templates.rs:1-37 | Printing a well-formed compiled template (braces escaped as `\{`) and compiling it gives the same template back. |
| TinyTemplate.EscapedTextRendersVerbatim | src/templates.rs:9 | Literal text written with `\{` escapes compiles to itself and renders to the same text with plain `{`, whatever the context. |
| TinyTemplate.Render | src/game_config.rs:57-62 | Rendering succeeds exactly when every placeholder in the template can be filled from the context by the formatter. |
| TinyTemplate.RenderAppend | src/game_config.rs:57-62 | Rendering a concatenation renders each part left to right, and the first error wins. |
| TinyTemplate.RenderAgree | src/game_config.rs:57-62 | A render reads only the fields its placeholders name: two contexts that agree on those fields give the same result. |
| TinyTemplate.TemplateRegistry.AddTemplate | src/game_config.rs:48-49 | Registering a template succeeds exactly when its source compiles. On success the compiled template is stored under the name. On failure the registry is unchanged and the compile error is returned. |
| Templates.AppBuildHoles | src/templates.rs:1-14 | The app script's placeholders are exactly `steam_app_id`, `steam_branch`, `game_output_path` and `steam_depot_id`, in this order, each once. |
| Templates.DepotBuildHoles | src/templates.rs:16-37 | The depot script has exactly one placeholder, `steam_depot_id`. |
| Templates.FixedTemplatesCompile | src/templates.rs:1-37 | Both fixed template sources compile, to exactly the compiled skeletons. |
| Templates.AppBuildRender | src/templates.rs:1-14 | A rendered app script is the skeleton with the app id, branch, output path and depot id filled in, in this order, each between quotes. The first field that cannot be filled is the error. |
| Templates.DepotBuildRender | src/templates.rs:16-37 | A rendered depot script is the skeleton with the quoted depot id filled in, or that field's error. |
| Templates.AppBuildFixedText | src/templates.rs:2-13 | Whatever the context, a rendered app script opens with the `"AppBuild"` block, whose brace is now literal. It carries the `"Desc" "Lowly build"` entry and ends with the fixed depot mapping and closing braces. |
| Templates.AppBuildDepotEntry | src/templates.rs:11 | Whatever the context, a rendered app script maps the quoted depot id to the quoted file name `lowly_depot_build.vdf`. |
| Templates.DepotBuildFixedText | src/templates.rs:19-34 | Whatever the context, a rendered depot script sets `"DepotID"` to the quoted depot id. It contains the `"LocalPath" "*"`, `"DepotPath" "."` and `"Recursive" "1"` entries. |
| Templates.DepotMappingEntries | src/templates.rs:26-34 | The fixed tail of the depot skeleton holds the three file-mapping entries. |
| GameConfig.ContextFields | src/game_config.rs:35-43 | A build context shows the configured app id, depot id and branch, the project path and the output path, each under its serialised name. |
| GameConfig.ContextFieldsKeys | src/game_config.rs:35-43 | A build context shows exactly the configuration's nine fields, with unchanged values, plus `game_path` and `game_output_path`. The template registry is not among them. |
| GameConfig.PcksRoundTrip | src/game_config.rs:4-8 | A list of pack records reads back from its serialised form unchanged. |
| GameConfig.ExtraFilesRoundTrip | src/game_config.rs:10-14 | A list of extra-file records reads back from its serialised form unchanged. |
| GameConfig.StringsRoundTrip | src/game_config.rs:29-30 | A list of file names reads back from its serialised form unchanged. |
| GameConfig.ParseInfoFields | src/game_config.rs:16-33 | A table holding every configuration field under its name reads back as that configuration. |
| GameConfig.GameConfigRoundTrip | src/game_config.rs:65-75 | Reading back a serialised tagged configuration gives the same configuration. |
| GameConfig.GameTypeSelectsVariant | src/game_config.rs:65-69 | A tagged configuration reads successfully exactly when its `game_type` tag is `Godot` and the Godot fields read successfully. The variant then holds those fields. |
| GameConfig.RequiredFieldsHaveNoDefault | src/game_config.rs:16-33 | Leaving out any field other than the three lists makes reading fail. |
| GameConfig.OptionalFieldsDefaultToEmpty | src/game_config.rs:25-32 | Leaving out `extra_files`, `files` and `pcks` reads them as empty and changes no other field. |
| GameConfig.UnknownFieldsIgnored | src/game_config.rs:16-33 | A field of any other name does not change what is read. |
| GameConfig.AppDescriptorFields | src/game_config.rs:57-59 | The app script rendered for a context is the skeleton with the formatted configured app id, branch and depot id and the context's output path. It fails only when the formatter refuses one of these four. |
| GameConfig.DepotDescriptorFields | src/game_config.rs:60-62 | The depot script rendered for a context is the skeleton with the formatted configured depot id, or the formatter's error. |
| GameConfig.DepotDescriptorIndependent | src/game_config.rs:60-62 | Two contexts with the same depot id render the same depot script, whatever their app id, branch, paths or other fields. |
| GameConfig.AppDescriptorIndependent | src/game_config.rs:57-59 | Two contexts that agree on app id, branch, depot id and output path render the same app script. |
| GameConfig.GodotBuildContext.New | src/game_config.rs:46-56 | Construction registers the app template and then the depot template. It fails exactly when one of them does not compile, with the first such error. Otherwise it returns a fresh context that holds the configuration and both paths unchanged, and whose registry holds both compiled templates. |
| GameConfig.GodotBuildContext.CompileAppBuild | src/game_config.rs:57-59 | Rendering the registered app template against the context only reads the context. It gives the app script for the context's configuration and paths. |
| GameConfig.GodotBuildContext.CompileDepotBuild | src/game_config.rs:60-62 | Rendering the registered depot template against the context only reads the context. It gives the depot script for the context's configuration. |
| Orchestrator.ExportPacks | src/main.rs:93-106 | The export loop's effects and fault are those of the export phase: one editor run per pack, in order, with a report after each non-zero exit. It stops only at an editor that cannot be started. |
| Orchestrator.RenderStagePaths | src/main.rs:109-114 | A fresh registry holding an extra file's `from` and `to` templates renders both against the build context. Any compile or render error is returned, in the order the code meets them. |
| Orchestrator.StagePathsOkIff | src/main.rs:109-114 | An extra file's two paths render exactly when both path templates compile and every placeholder in either names a context field the formatter accepts. A path template that does not compile makes staging fail with a parse error. |
| Orchestrator.StageExtraFiles | src/main.rs:108-120 | The staging loop's effects and fault are those of the staging phase: each extra file, in order, is copied between its rendered paths. A template error or a failed copy stops the loop. |
| Orchestrator.WriteScripts | src/main.rs:122-127 | The app script is rendered and written to `<temp>/lowly_build.vdf`, then the depot script to `<temp>/lowly_depot_build.vdf`. A render error or a failed write stops the run at that point. |
| Orchestrator.Upload | src/main.rs:129-143 | `steamcmd +login <account> +run_app_build <temp>/lowly_build.vdf +exit` is started. A non-zero status is reported. The branch and the success line are printed. Only a `steamcmd` that cannot be started is fatal. |
| Orchestrator.Godot | src/main.rs:90-144 | The whole routine's outcome and effects are those of `Run`: build the context, export, stage, write and upload, stopping at the first fatal error. |
| Orchestrator.ExportsCompleteIff | src/main.rs:93-106 | The export phase stops exactly when some editor cannot be started, and then with that spawn fault. Exit codes play no part. |
| Orchestrator.ExportFailureReported | src/main.rs:102-105 | An editor that exits with a non-zero status is reported, and the exports after it still run, as long as every editor starts. |
| Orchestrator.ExportsInOrder | src/main.rs:93-102 | A completed export phase starts exactly one editor per pack, in declaration order, with `--headless --path <game path> --export-pack <preset> <output>/<name>`. |
| Orchestrator.ExportEffectKinds | src/main.rs:93-106 | The export phase only starts editors and prints. |
| Orchestrator.StagesCompleteIff | src/main.rs:108-120 | The staging phase stops exactly when some extra file's paths fail to render or its copy fails. The fault is then the copy panic or that file's template error. |
| Orchestrator.StagesInOrder | src/main.rs:108-120 | A completed staging phase copies every extra file once, in declaration order, between its rendered paths. |
| Orchestrator.StageEffectKinds | src/main.rs:108-120 | The staging phase only copies. |
| Orchestrator.RunIsPipeline | src/main.rs:91 | Building the context never fails, because both fixed templates compile. A run is therefore its pipeline of phases. |
| Orchestrator.PipelineCompletedIff | src/main.rs:90-144 | The phases complete exactly when every editor and `steamcmd` start, every extra file renders and copies, and both scripts render and are written. No exit code appears in the condition. |
| Orchestrator.RunCompletedIff | src/main.rs:90-144 | A run completes exactly under the same conditions, stated on the configuration, the paths and the formatter. |
| Orchestrator.CopyFailureWritesNothing | src/main.rs:119-135 | A failed copy of any extra file aborts the run before either script is written and before `steamcmd` is started. |
| Orchestrator.CompletedTrace | src/main.rs:122-143 | A completed run does, in order: the exports; the copies; the app-script write; the depot-script write; one `steamcmd` upload of the app script; a report of a non-zero `steamcmd` status; the branch; and the success line. |
| Orchestrator.CompletedRunSpawns | src/main.rs:93-135 | A completed run starts one editor per pack, in order, and then `steamcmd` exactly once. With no packs, `steamcmd` is the only process started. |
| Orchestrator.DepotScriptNameAgrees | src/main.rs:125-127 | The app script names its depot script `lowly_depot_build.vdf`, beside the quoted depot id. That is the same file name the run writes the depot script to in the temporary directory. |

## Left out

- Command-line parsing in `main` and its flags are not modelled. Several flags, such as the
  branch, dry-run and publish-only flags, are never used by `godot`. The branch in the scripts
  comes from the configuration.
- Layered configuration loading and path canonicalisation are file I/O and a foreign library.
  - A configuration comes in as an already-merged table of serialised values.
  - The configuration library's type coercion (a string read as a number, say) is not modelled.
  - An integer field must be a number within the 32-bit signed range.
- The git lookup and the `version.json` sidecar are not modelled: they are version-control
  and filesystem I/O.
- ParseGodotGameInfo: when several fields are wrong, it reports the first in declaration order.
  serde may report a different one.
- The template library's own parser and formatter are not visible, so they are modelled, not
  reproduced.
  - Placeholders are `{name}`, where the name is letters, digits and `_`. `\{` is a literal
    brace, and an unescaped `{` that opens no placeholder is a parse error.
  - The library's paths, conditionals, loops and formatter pipes are not modelled.
  - The default formatter, which may HTML-escape a value, is an abstract parameter.
- Process spawning, copying, writing and the temporary directory are outcomes supplied in
  advance, and effects are recorded as attempts.
  - A process killed by a signal is one that exits with a non-zero status.
  - A printed line is recorded by its kind and value, not its exact text.
  - A panic from a failed copy or write and an error returned early are both an aborted run.
  - Process exit codes and unwinding are not modelled.
- Join: path joining is concatenation with `/`. The case where an absolute pack name or file
  name replaces the directory is not modelled.
- The race between two concurrent runs on the two fixed temporary file names is not modelled.
  The model is single-threaded, as the routine is.
- A process that cannot be started at all ends the run, because the code propagates that error
  (`.status()?`, src/main.rs:102, 135).
