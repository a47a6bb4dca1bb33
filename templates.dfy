/**
 * The two fixed Steam build-script skeletons (`templates.rs`): the app-build script, which names
 * the depot script by file name, and the depot-build script. Each is given in compiled form, as
 * literal text and quoted placeholders; its template source is that form printed, so every
 * literal `{` is written `\{` in the source.
 */
module Templates {
  import opened Results
  import opened TinyTemplate

  /** `s` occurs somewhere in `text`. */
  ghost predicate Contains(text: string, s: string) {
    exists pre, post :: text == pre + s + post
  }

  /** `text` ends with `s`. */
  ghost predicate EndsWith(text: string, s: string) {
    exists pre :: text == pre + s
  }

  lemma ContainsInside(pre: string, s: string, post: string)
    ensures Contains(pre + s + post, s)
  {
  }

  lemma ContainsSelf(s: string)
    ensures Contains(s, s)
  {
    assert s == [] + s + [];
  }

  lemma ContainsLeft(a: string, b: string, s: string)
    requires Contains(a, s)
    ensures Contains(a + b, s)
  {
    var pre, post :| a == pre + s + post;
    assert a + b == pre + s + (post + b);
  }

  lemma ContainsRight(a: string, b: string, s: string)
    requires Contains(b, s)
    ensures Contains(a + b, s)
  {
    var pre, post :| b == pre + s + post;
    assert a + b == (a + pre) + s + post;
  }

  /** A VDF string value: the text between double quotes. */
  function Quote(v: string): string {
    "\"" + v + "\""
  }

  /** Literal text followed by a placeholder between double quotes, as VDF writes a value. */
  function Slot(text: string, name: string): (t: Template)
    ensures Holes(t) == [name]
  {
    var q := [Char('"'), Hole(name), Char('"')];
    assert q[1..] == [Hole(name), Char('"')] && q[1..][1..] == [Char('"')] && [Char('"')][1..] == [];
    assert Holes([Char('"')]) == [] && Holes(q[1..]) == [name] && Holes(q) == [name];
    HolesText(text);
    HolesAppend(Text(text), q);
    Text(text) + q
  }

  lemma SlotWellFormed(text: string, name: string)
    requires ValidName(name)
    ensures WellFormed(Slot(text, name)) && Slot(text, name)[0] == Char(if text == [] then '"' else text[0])
  {
  }

  lemma SlotRender(text: string, name: string, ctx: Context, fmt: Formatter)
    ensures Render(Slot(text, name), ctx, fmt) == (var v :- Lookup(ctx, fmt, name); Ok(text + Quote(v)))
  {
    var q := [Char('"'), Hole(name), Char('"')];
    assert q[1..] == [Hole(name), Char('"')] && q[1..][1..] == [Char('"')] && [Char('"')][1..] == [];
    assert ['"'] + "" == "\"";
    assert Render([Char('"')], ctx, fmt) == Ok("\"");
    var v := Lookup(ctx, fmt, name);
    assert Render(q[1..], ctx, fmt) == (var x :- v; Ok(x + "\""));
    if v.Ok? {
      assert ['"'] + (v.value + "\"") == Quote(v.value);
    }
    assert Render(q, ctx, fmt) == (var x :- v; Ok(Quote(x)));
    RenderText(text, ctx, fmt);
    RenderAppend(Text(text), q, ctx, fmt);
  }

  // ---- APP_BUILD_TEMPLATE ----

  const DESC_ENTRY := "\"Desc\" \"Lowly build\""

  const APP_0 := "\n\"AppBuild\"\n{\n\t\"AppID\" "
  const APP_1 := " // Your AppID\n\t" + DESC_ENTRY + " // internal description for this build\n\t\"SetLive\" "
  const APP_2 := " // set this build live on beta branch AlphaTest\n\t\"ContentRoot\" "
  const APP_3 := " // content root folder relative to this script file\n\t\"Depots\"\n\t{\n"
                 + "\t\t// file mapping instructions for each depot are in separate script files\n\t\t"
  /** The file name the app script gives for the depot script. */
  const DEPOT_SCRIPT_NAME := "lowly_depot_build.vdf"
  const APP_4 := " " + Quote(DEPOT_SCRIPT_NAME) + "\n\t}\n}\n"

  /** The compiled app-build skeleton. */
  const AppBuild: Template :=
    Slot(APP_0, "steam_app_id") + Slot(APP_1, "steam_branch") + Slot(APP_2, "game_output_path")
    + Slot(APP_3, "steam_depot_id") + Text(APP_4)

  /** The app-build template source. */
  const APP_BUILD_TEMPLATE: string := Print(AppBuild)

  // ---- APP_DEPOT_BUILD_TEMPLATE ----

  const LOCAL_PATH_ENTRY := "\"LocalPath\" \"*\""
  const DEPOT_PATH_ENTRY := "\"DepotPath\" \".\""
  const RECURSIVE_ENTRY := "\"Recursive\" \"1\""

  const DEPOT_ID_KEY := "\"DepotID\" "

  const DEPOT_0 := "\n\"DepotBuild\"\n{\n\t// Set your assigned depot ID here\n\t" + DEPOT_ID_KEY
  const DEPOT_1 := "\n\n\t// include all files recursivley\n\t\"FileMapping\"\n\t{\n"
                   + "\t\t// This can be a full path, or a path relative to ContentRoot\n\t\t"
                   + LOCAL_PATH_ENTRY
                   + "\n\n\t\t// This is a path relative to the install folder of your game\n\t\t"
                   + DEPOT_PATH_ENTRY
                   + "\n\t\t\n\t\t// If LocalPath contains wildcards, setting this means that all\n"
                   + "\t\t// matching files within subdirectories of LocalPath will also\n"
                   + "\t\t// be included.\n\t\t"
                   + RECURSIVE_ENTRY
                   + "\n  }\n}\n"

  /** The compiled depot-build skeleton. */
  const DepotBuild: Template := Slot(DEPOT_0, "steam_depot_id") + Text(DEPOT_1)

  /** The depot-build template source. */
  const APP_DEPOT_BUILD_TEMPLATE: string := Print(DepotBuild)

  /** The app script uses four placeholders, each exactly once. */
  lemma AppBuildHoles()
    ensures Holes(AppBuild) == ["steam_app_id", "steam_branch", "game_output_path", "steam_depot_id"]
  {
    var s0, s1, s2, s3 := Slot(APP_0, "steam_app_id"), Slot(APP_1, "steam_branch"),
                          Slot(APP_2, "game_output_path"), Slot(APP_3, "steam_depot_id");
    HolesText(APP_4);
    HolesAppend(s0, s1);
    HolesAppend(s0 + s1, s2);
    HolesAppend(s0 + s1 + s2, s3);
    HolesAppend(s0 + s1 + s2 + s3, Text(APP_4));
  }

  /** The depot script uses the depot id alone: nothing else can reach it. */
  lemma DepotBuildHoles()
    ensures Holes(DepotBuild) == ["steam_depot_id"]
  {
    HolesText(DEPOT_1);
    HolesAppend(Slot(DEPOT_0, "steam_depot_id"), Text(DEPOT_1));
  }

  lemma WellFormedThenSlot(t: Template, text: string, name: string)
    requires WellFormed(t) && ValidName(name)
    ensures WellFormed(t + Slot(text, name))
  {
    SlotWellFormed(text, name);
    WellFormedAppend(t, Slot(text, name));
  }

  lemma WellFormedThenText(t: Template, text: string)
    requires WellFormed(t)
    ensures WellFormed(t + Text(text))
  {
    WellFormedAppend(t, Text(text));
  }

  /** Four quoted placeholders between literal texts form a well-formed template, whatever the texts. */
  lemma FourSlotsWellFormed(a0: string, a1: string, a2: string, a3: string, a4: string,
                            n0: string, n1: string, n2: string, n3: string)
    requires ValidName(n0) && ValidName(n1) && ValidName(n2) && ValidName(n3)
    ensures WellFormed(Slot(a0, n0) + Slot(a1, n1) + Slot(a2, n2) + Slot(a3, n3) + Text(a4))
  {
    var s0, s1, s2, s3 := Slot(a0, n0), Slot(a1, n1), Slot(a2, n2), Slot(a3, n3);
    WellFormedThenSlot([], a0, n0);
    assert [] + s0 == s0;
    WellFormedThenSlot(s0, a1, n1);
    WellFormedThenSlot(s0 + s1, a2, n2);
    WellFormedThenSlot(s0 + s1 + s2, a3, n3);
    WellFormedThenText(s0 + s1 + s2 + s3, a4);
  }

  lemma AppBuildWellFormed()
    ensures WellFormed(AppBuild)
  {
    FourSlotsWellFormed(APP_0, APP_1, APP_2, APP_3, APP_4,
                        "steam_app_id", "steam_branch", "game_output_path", "steam_depot_id");
  }

  lemma DepotBuildWellFormed()
    ensures WellFormed(DepotBuild)
  {
    SlotWellFormed(DEPOT_0, "steam_depot_id");
    WellFormedAppend(Slot(DEPOT_0, "steam_depot_id"), Text(DEPOT_1));
  }

  /** Both template sources compile, to exactly the skeletons above. */
  lemma FixedTemplatesCompile()
    ensures Compile(APP_BUILD_TEMPLATE) == Ok(AppBuild)
    ensures Compile(APP_DEPOT_BUILD_TEMPLATE) == Ok(DepotBuild)
  {
    AppBuildWellFormed();
    CompilePrint(AppBuild);
    DepotBuildWellFormed();
    CompilePrint(DepotBuild);
  }

  /**
   * The rendered app script is the fixed skeleton with the app id, branch, output path and
   * depot id, in this order, each between quotes; the first field that cannot be filled is
   * the error.
   */
  lemma AppBuildRender(ctx: Context, fmt: Formatter)
    ensures Render(AppBuild, ctx, fmt) ==
            (var appId :- Lookup(ctx, fmt, "steam_app_id");
             var branch :- Lookup(ctx, fmt, "steam_branch");
             var output :- Lookup(ctx, fmt, "game_output_path");
             var depotId :- Lookup(ctx, fmt, "steam_depot_id");
             Ok((APP_0 + Quote(appId)) + (APP_1 + Quote(branch)) + (APP_2 + Quote(output))
                + (APP_3 + Quote(depotId)) + APP_4))
  {
    var s0, s1, s2, s3 := Slot(APP_0, "steam_app_id"), Slot(APP_1, "steam_branch"),
                          Slot(APP_2, "game_output_path"), Slot(APP_3, "steam_depot_id");
    SlotRender(APP_0, "steam_app_id", ctx, fmt);
    SlotRender(APP_1, "steam_branch", ctx, fmt);
    SlotRender(APP_2, "game_output_path", ctx, fmt);
    SlotRender(APP_3, "steam_depot_id", ctx, fmt);
    RenderText(APP_4, ctx, fmt);
    RenderAppend(s0, s1, ctx, fmt);
    RenderAppend(s0 + s1, s2, ctx, fmt);
    RenderAppend(s0 + s1 + s2, s3, ctx, fmt);
    RenderAppend(s0 + s1 + s2 + s3, Text(APP_4), ctx, fmt);
  }

  /** The rendered depot script is the fixed skeleton with the depot id between quotes. */
  lemma DepotBuildRender(ctx: Context, fmt: Formatter)
    ensures Render(DepotBuild, ctx, fmt) ==
            (var depotId :- Lookup(ctx, fmt, "steam_depot_id");
             Ok((DEPOT_0 + Quote(depotId)) + DEPOT_1))
  {
    SlotRender(DEPOT_0, "steam_depot_id", ctx, fmt);
    RenderText(DEPOT_1, ctx, fmt);
    RenderAppend(Slot(DEPOT_0, "steam_depot_id"), Text(DEPOT_1), ctx, fmt);
  }

  /**
   * Whatever the context, a rendered app script opens with the `"AppBuild"` block (its brace
   * now literal), carries the fixed description and ends with the fixed depot mapping.
   */
  lemma AppBuildFixedText(ctx: Context, fmt: Formatter, text: string)
    requires Render(AppBuild, ctx, fmt) == Ok(text)
    ensures APP_0 <= text && Contains(text, DESC_ENTRY) && EndsWith(text, APP_4)
  {
    AppBuildRender(ctx, fmt);
    var appId := Lookup(ctx, fmt, "steam_app_id").value;
    var branch := Lookup(ctx, fmt, "steam_branch").value;
    var output := Lookup(ctx, fmt, "game_output_path").value;
    var depotId := Lookup(ctx, fmt, "steam_depot_id").value;
    DescriptionInAppText();
    FixedPartsOf(text, APP_0, Quote(appId), APP_1, Quote(branch), APP_2 + Quote(output),
                 APP_3 + Quote(depotId), APP_4, DESC_ENTRY);
  }

  /**
   * Whatever the context, a rendered app script maps the quoted depot id to the quoted depot
   * script name.
   */
  lemma AppBuildDepotEntry(ctx: Context, fmt: Formatter, text: string)
    requires Render(AppBuild, ctx, fmt) == Ok(text)
    ensures Lookup(ctx, fmt, "steam_depot_id").Ok?
    ensures Contains(text, Quote(Lookup(ctx, fmt, "steam_depot_id").value) + " " + Quote(DEPOT_SCRIPT_NAME))
  {
    AppBuildRender(ctx, fmt);
    var appId := Lookup(ctx, fmt, "steam_app_id").value;
    var branch := Lookup(ctx, fmt, "steam_branch").value;
    var output := Lookup(ctx, fmt, "game_output_path").value;
    var depotId := Lookup(ctx, fmt, "steam_depot_id").value;
    var front := (APP_0 + Quote(appId)) + (APP_1 + Quote(branch)) + (APP_2 + Quote(output));
    assert APP_4 == " " + Quote(DEPOT_SCRIPT_NAME) + "\n\t}\n}\n";
    EntryBeforeTail(text, front, APP_3, Quote(depotId), DEPOT_SCRIPT_NAME, "\n\t}\n}\n");
  }

  lemma EntryBeforeTail(text: string, front: string, a: string, q: string, name: string, post: string)
    requires text == front + (a + q) + (" " + Quote(name) + post)
    ensures Contains(text, q + " " + Quote(name))
  {
    assert text == (front + a) + (q + " " + Quote(name)) + post;
    ContainsInside(front + a, q + " " + Quote(name), post);
  }

  /** The second fixed chunk of the app script carries the build description. */
  lemma DescriptionInAppText()
    ensures Contains(APP_1, DESC_ENTRY)
  {
    var a := " // Your AppID\n\t";
    var b := " // internal description for this build\n\t\"SetLive\" ";
    assert APP_1 == a + DESC_ENTRY + b;
    ContainsInside(a, DESC_ENTRY, b);
  }

  /** The text before the first value, any text inside a fixed chunk, and the tail survive rendering. */
  lemma FixedPartsOf(text: string, a0: string, v0: string, a1: string, v1: string, p2: string,
                     p3: string, tail: string, x: string)
    requires text == (a0 + v0) + (a1 + v1) + p2 + p3 + tail
    requires Contains(a1, x)
    ensures a0 <= text && Contains(text, x) && EndsWith(text, tail)
  {
    assert text == a0 + (v0 + (a1 + v1) + p2 + p3 + tail);
    ContainsLeft(a1, v1, x);
    ContainsRight(a0 + v0, a1 + v1, x);
    ContainsLeft((a0 + v0) + (a1 + v1), p2, x);
    ContainsLeft((a0 + v0) + (a1 + v1) + p2, p3, x);
    ContainsLeft((a0 + v0) + (a1 + v1) + p2 + p3, tail, x);
  }

  /**
   * Whatever the context, a rendered depot script sets `"DepotID"` to the quoted depot id and
   * maps every local file, recursively, to the install root.
   */
  lemma DepotBuildFixedText(ctx: Context, fmt: Formatter, text: string)
    requires Render(DepotBuild, ctx, fmt) == Ok(text)
    ensures Lookup(ctx, fmt, "steam_depot_id").Ok?
    ensures Contains(text, DEPOT_ID_KEY + Quote(Lookup(ctx, fmt, "steam_depot_id").value))
    ensures Contains(text, LOCAL_PATH_ENTRY)
    ensures Contains(text, DEPOT_PATH_ENTRY)
    ensures Contains(text, RECURSIVE_ENTRY)
  {
    DepotBuildRender(ctx, fmt);
    var v := Lookup(ctx, fmt, "steam_depot_id").value;
    var head := "\n\"DepotBuild\"\n{\n\t// Set your assigned depot ID here\n\t";
    assert text == (head + DEPOT_ID_KEY + Quote(v)) + DEPOT_1;
    assert head + DEPOT_ID_KEY + Quote(v) == head + (DEPOT_ID_KEY + Quote(v)) + [];
    ContainsInside(head, DEPOT_ID_KEY + Quote(v), []);
    ContainsLeft(head + DEPOT_ID_KEY + Quote(v), DEPOT_1, DEPOT_ID_KEY + Quote(v));
    DepotMappingEntries();
    ContainsRight(head + DEPOT_ID_KEY + Quote(v), DEPOT_1, LOCAL_PATH_ENTRY);
    ContainsRight(head + DEPOT_ID_KEY + Quote(v), DEPOT_1, DEPOT_PATH_ENTRY);
    ContainsRight(head + DEPOT_ID_KEY + Quote(v), DEPOT_1, RECURSIVE_ENTRY);
  }

  lemma DepotMappingEntries()
    ensures Contains(DEPOT_1, LOCAL_PATH_ENTRY)
    ensures Contains(DEPOT_1, DEPOT_PATH_ENTRY)
    ensures Contains(DEPOT_1, RECURSIVE_ENTRY)
  {
    var a := "\n\n\t// include all files recursivley\n\t\"FileMapping\"\n\t{\n"
             + "\t\t// This can be a full path, or a path relative to ContentRoot\n\t\t";
    var b := "\n\n\t\t// This is a path relative to the install folder of your game\n\t\t";
    var c := "\n\t\t\n\t\t// If LocalPath contains wildcards, setting this means that all\n"
             + "\t\t// matching files within subdirectories of LocalPath will also\n"
             + "\t\t// be included.\n\t\t";
    var d := "\n  }\n}\n";
    assert DEPOT_1 == a + LOCAL_PATH_ENTRY + b + DEPOT_PATH_ENTRY + c + RECURSIVE_ENTRY + d;
    ContainsSelf(LOCAL_PATH_ENTRY);
    ContainsRight(a, LOCAL_PATH_ENTRY, LOCAL_PATH_ENTRY);
    ContainsLeft(a + LOCAL_PATH_ENTRY, b, LOCAL_PATH_ENTRY);
    ContainsLeft(a + LOCAL_PATH_ENTRY + b, DEPOT_PATH_ENTRY, LOCAL_PATH_ENTRY);
    ContainsLeft(a + LOCAL_PATH_ENTRY + b + DEPOT_PATH_ENTRY, c, LOCAL_PATH_ENTRY);
    ContainsLeft(a + LOCAL_PATH_ENTRY + b + DEPOT_PATH_ENTRY + c, RECURSIVE_ENTRY, LOCAL_PATH_ENTRY);
    ContainsLeft(a + LOCAL_PATH_ENTRY + b + DEPOT_PATH_ENTRY + c + RECURSIVE_ENTRY, d, LOCAL_PATH_ENTRY);
    ContainsSelf(DEPOT_PATH_ENTRY);
    ContainsRight(a + LOCAL_PATH_ENTRY + b, DEPOT_PATH_ENTRY, DEPOT_PATH_ENTRY);
    ContainsLeft(a + LOCAL_PATH_ENTRY + b + DEPOT_PATH_ENTRY, c, DEPOT_PATH_ENTRY);
    ContainsLeft(a + LOCAL_PATH_ENTRY + b + DEPOT_PATH_ENTRY + c, RECURSIVE_ENTRY, DEPOT_PATH_ENTRY);
    ContainsLeft(a + LOCAL_PATH_ENTRY + b + DEPOT_PATH_ENTRY + c + RECURSIVE_ENTRY, d, DEPOT_PATH_ENTRY);
    ContainsSelf(RECURSIVE_ENTRY);
    ContainsRight(a + LOCAL_PATH_ENTRY + b + DEPOT_PATH_ENTRY + c, RECURSIVE_ENTRY, RECURSIVE_ENTRY);
    ContainsLeft(a + LOCAL_PATH_ENTRY + b + DEPOT_PATH_ENTRY + c + RECURSIVE_ENTRY, d, RECURSIVE_ENTRY);
  }
}
