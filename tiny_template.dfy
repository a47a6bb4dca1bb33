/**
 * The micro-templating capability the build pipeline relies on: a template source with
 * `{name}` placeholders and `\{` for a literal opening brace is compiled once, then rendered
 * against a context of named, serialised field values. The registry class stands for the
 * library's `TinyTemplate` object, which the build context fills with named templates.
 */
module TinyTemplate {
  import opened Results

  /** A serialised field value, in the shape serde hands a context to the renderer. */
  datatype Value =
    | Int(i: int)
    | Str(s: string)
    | List(items: seq<Value>)
    | Table(fields: map<string, Value>)

  datatype TemplateError =
    | ParseError(rest: string)      // the source from an unescaped `{` that opens no placeholder
    | UnknownField(name: string)    // a placeholder naming no field of the context
    | Unprintable(value: Value)     // the formatter refused a value
    | UnknownTemplate(name: string) // rendering a name that was never registered

  /** How a field value becomes text; the library's default formatter, left abstract. */
  type Formatter = Value -> Result<string, TemplateError>

  /** The serialised context: field name to value. */
  type Context = map<string, Value>

  /** A compiled template is a sequence of literal characters and placeholders. */
  datatype Piece = Char(c: char) | Hole(name: string)

  type Template = seq<Piece>

  predicate IsNameChar(c: char) {
    'a' <= c <= 'z' || 'A' <= c <= 'Z' || '0' <= c <= '9' || c == '_'
  }

  predicate ValidName(name: string) {
    |name| > 0 && forall i | 0 <= i < |name| :: IsNameChar(name[i])
  }

  /** The pieces of a placeholder-free text. */
  function Text(s: string): Template {
    seq(|s|, i requires 0 <= i < |s| => Char(s[i]))
  }

  /** The placeholder names of a template, in order, with repetitions. */
  function Holes(t: Template): seq<string> {
    if t == [] then []
    else (if t[0].Hole? then [t[0].name] else []) + Holes(t[1..])
  }

  /**
   * A template that some source compiles to: every placeholder is a valid name, and no literal
   * backslash stands right before a placeholder (printed, the pair would read as an escape).
   */
  predicate WellFormed(t: Template) {
    && (forall i | 0 <= i < |t| && t[i].Hole? :: ValidName(t[i].name))
    && (forall i | 1 <= i < |t| && t[i].Hole? :: t[i - 1] != Char('\\'))
  }

  function PrintPiece(p: Piece): string {
    match p
    case Char(c) => if c == '{' then "\\{" else [c]
    case Hole(name) => "{" + name + "}"
  }

  /** The template source a compiled template comes from: literal braces escaped as `\{`. */
  function Print(t: Template): string {
    if t == [] then "" else PrintPiece(t[0]) + Print(t[1..])
  }

  /** The end of the run of name characters in `s` that starts at `i`. */
  function NameEnd(s: string, i: nat): (k: nat)
    requires i <= |s|
    ensures i <= k <= |s|
    ensures forall j | i <= j < k :: IsNameChar(s[j])
    ensures k < |s| ==> !IsNameChar(s[k])
    decreases |s| - i
  {
    if i == |s| || !IsNameChar(s[i]) then i else NameEnd(s, i + 1)
  }

  /**
   * Compiles a template source. `\{` is a literal `{`; `{name}` is a placeholder; an unescaped
   * `{` that does not open a placeholder is a parse error; every other character is literal.
   */
  function Compile(source: string): (r: Result<Template, TemplateError>)
    ensures r.Err? ==> r.error.ParseError?
    decreases |source|
  {
    if source == [] then Ok([])
    else if source[0] == '\\' && |source| > 1 && source[1] == '{' then
      var rest :- Compile(source[2..]);
      Ok([Char('{')] + rest)
    else if source[0] == '{' then
      var k := NameEnd(source, 1);
      if 1 < k < |source| && source[k] == '}' then
        var rest :- Compile(source[k + 1..]);
        Ok([Hole(source[1..k])] + rest)
      else
        Err(ParseError(source))
    else
      var rest :- Compile(source[1..]);
      Ok([Char(source[0])] + rest)
  }

  /** The text a placeholder is replaced by: the formatted field, or an error for an unknown field. */
  function Lookup(ctx: Context, fmt: Formatter, name: string): Result<string, TemplateError> {
    if name in ctx then fmt(ctx[name]) else Err(UnknownField(name))
  }

  /**
   * Renders a compiled template against a context, left to right, stopping at the first
   * placeholder that cannot be filled. It succeeds exactly when every placeholder can be.
   */
  function Render(t: Template, ctx: Context, fmt: Formatter): (r: Result<string, TemplateError>)
    ensures r.Ok? <==> forall name | name in Holes(t) :: Lookup(ctx, fmt, name).Ok?
  {
    if t == [] then Ok("")
    else
      var head :- (match t[0]
                   case Char(c) => Ok([c])
                   case Hole(name) => Lookup(ctx, fmt, name));
      var tail :- Render(t[1..], ctx, fmt);
      Ok(head + tail)
  }

  lemma {:induction false} HolesAppend(a: Template, b: Template)
    ensures Holes(a + b) == Holes(a) + Holes(b)
  {
    if a != [] {
      assert (a + b)[1..] == a[1..] + b;
      HolesAppend(a[1..], b);
    } else {
      assert a + b == b;
    }
  }

  lemma {:induction false} HolesText(s: string)
    ensures Holes(Text(s)) == []
  {
    if s != [] {
      assert Text(s)[1..] == Text(s[1..]);
      HolesText(s[1..]);
    }
  }

  lemma {:induction false} PrintAppend(a: Template, b: Template)
    ensures Print(a + b) == Print(a) + Print(b)
  {
    if a != [] {
      assert (a + b)[1..] == a[1..] + b;
      PrintAppend(a[1..], b);
    } else {
      assert a + b == b;
    }
  }

  lemma WellFormedAppend(a: Template, b: Template)
    requires WellFormed(a) && WellFormed(b)
    requires a != [] && b != [] && b[0].Hole? ==> a[|a| - 1] != Char('\\')
    ensures WellFormed(a + b)
  {
    var t := a + b;
    forall i | 1 <= i < |t| && t[i].Hole?
      ensures t[i - 1] != Char('\\')
    {
      if i > |a| {
        assert t[i] == b[i - |a|] && t[i - 1] == b[i - 1 - |a|];
      }
    }
  }

  lemma WellFormedCons(p: Piece, rest: Template)
    requires WellFormed(rest)
    requires p.Hole? ==> ValidName(p.name)
    requires p == Char('\\') && rest != [] ==> !rest[0].Hole?
    ensures WellFormed([p] + rest)
  {
    var t := [p] + rest;
    forall i | 1 <= i < |t| && t[i].Hole?
      ensures ValidName(t[i].name) && t[i - 1] != Char('\\')
    {
      assert t[i] == rest[i - 1];
      if i > 1 {
        assert t[i - 1] == rest[i - 2];
      }
    }
  }

  lemma PrintCons(p: Piece, rest: Template)
    ensures Print([p] + rest) == PrintPiece(p) + Print(rest)
  {
    assert ([p] + rest)[1..] == rest;
  }

  /** Whether `t` is a well-formed template that prints back to `source`. */
  ghost predicate RoundTrips(source: string, t: Template) {
    WellFormed(t) && Print(t) == source && (t != [] && t[0].Hole? ==> source != [] && source[0] == '{')
  }

  lemma RoundTripEscape(source: string)
    requires |source| > 1 && source[0] == '\\' && source[1] == '{'
    requires Compile(source[2..]).Ok? ==> RoundTrips(source[2..], Compile(source[2..]).value)
    ensures Compile(source).Ok? ==> RoundTrips(source, Compile(source).value)
  {
    var tail := source[2..];
    if Compile(tail).Ok? {
      var rest := Compile(tail).value;
      WellFormedCons(Char('{'), rest);
      PrintCons(Char('{'), rest);
      assert source == "\\{" + tail;
    }
  }

  /** The parts of a source that opens with a placeholder. */
  lemma HoleSource(source: string, k: nat)
    requires source != [] && source[0] == '{' && 1 < k < |source| && source[k] == '}'
    ensures source == "{" + source[1..k] + "}" + source[k + 1..]
  {
    var name, tail := source[1..k], source[k + 1..];
    assert source[k..] == "}" + tail;
    assert source[1..] == name + source[k..];
    assert source == "{" + source[1..];
  }

  lemma HoleName(source: string, k: nat)
    requires 1 < k < |source| && k == NameEnd(source, 1)
    ensures ValidName(source[1..k])
  {
    var name := source[1..k];
    forall i | 0 <= i < |name|
      ensures IsNameChar(name[i])
    {
      assert name[i] == source[i + 1];
    }
  }

  lemma HoleCompile(source: string, k: nat)
    requires source != [] && source[0] == '{' && k == NameEnd(source, 1) && 1 < k < |source| && source[k] == '}'
    ensures Compile(source) == (var rest :- Compile(source[k + 1..]); Ok([Hole(source[1..k])] + rest))
  {
  }

  lemma RoundTripHole(source: string, k: nat)
    requires source != [] && source[0] == '{' && k == NameEnd(source, 1) && 1 < k < |source| && source[k] == '}'
    requires Compile(source[k + 1..]).Ok? ==> RoundTrips(source[k + 1..], Compile(source[k + 1..]).value)
    ensures Compile(source).Ok? ==> RoundTrips(source, Compile(source).value)
  {
    var name, tail := source[1..k], source[k + 1..];
    HoleSource(source, k);
    HoleName(source, k);
    HoleCompile(source, k);
    if Compile(tail).Ok? {
      var rest := Compile(tail).value;
      WellFormedCons(Hole(name), rest);
      PrintCons(Hole(name), rest);
    }
  }

  lemma RoundTripChar(source: string)
    requires source != [] && source[0] != '{' && !(source[0] == '\\' && |source| > 1 && source[1] == '{')
    requires Compile(source[1..]).Ok? ==> RoundTrips(source[1..], Compile(source[1..]).value)
    ensures Compile(source).Ok? ==> RoundTrips(source, Compile(source).value)
  {
    var tail := source[1..];
    if Compile(tail).Ok? {
      var rest := Compile(tail).value;
      WellFormedCons(Char(source[0]), rest);
      PrintCons(Char(source[0]), rest);
      assert source == [source[0]] + tail;
    }
  }

  /** A compiled template is well formed and prints back to exactly its source. */
  lemma {:induction false} CompileRoundTrip(source: string)
    ensures Compile(source).Ok? ==> WellFormed(Compile(source).value) && Print(Compile(source).value) == source
    ensures Compile(source).Ok? ==> RoundTrips(source, Compile(source).value)
    decreases |source|
  {
    if source == [] {
    } else if source[0] == '\\' && |source| > 1 && source[1] == '{' {
      CompileRoundTrip(source[2..]);
      RoundTripEscape(source);
    } else if source[0] == '{' {
      var k := NameEnd(source, 1);
      if 1 < k < |source| && source[k] == '}' {
        CompileRoundTrip(source[k + 1..]);
        RoundTripHole(source, k);
      }
    } else {
      CompileRoundTrip(source[1..]);
      RoundTripChar(source);
    }
  }

  lemma CompileCharStep(c: char, tail: string, rest: Template)
    requires c != '{' && Compile(tail) == Ok(rest)
    requires c == '\\' ==> tail == [] || tail[0] != '{'
    ensures Compile([c] + tail) == Ok([Char(c)] + rest)
  {
    assert ([c] + tail)[1..] == tail;
  }

  lemma CompileEscapeStep(tail: string, rest: Template)
    requires Compile(tail) == Ok(rest)
    ensures Compile("\\{" + tail) == Ok([Char('{')] + rest)
  {
    assert ("\\{" + tail)[2..] == tail;
  }

  lemma CompileHoleStep(name: string, tail: string, rest: Template)
    requires ValidName(name) && Compile(tail) == Ok(rest)
    ensures Compile("{" + name + "}" + tail) == Ok([Hole(name)] + rest)
  {
    var s := "{" + name + "}" + tail;
    var n := |name|;
    assert s[1..n + 1] == name;
    assert s[n + 1] == '}';
    assert NameEnd(s, 1) == n + 1;
    assert s[n + 2..] == tail;
  }

  lemma WellFormedTail(t: Template)
    requires WellFormed(t) && t != []
    ensures WellFormed(t[1..])
  {
    var rest := t[1..];
    forall i | 0 <= i < |rest| && rest[i].Hole?
      ensures ValidName(rest[i].name)
    {
      assert rest[i] == t[i + 1];
    }
    forall i | 1 <= i < |rest| && rest[i].Hole?
      ensures rest[i - 1] != Char('\\')
    {
      assert rest[i] == t[i + 1] && rest[i - 1] == t[i];
    }
  }

  /** Printing a well-formed template and compiling the text gives the template back. */
  lemma {:induction false} CompilePrint(t: Template)
    requires WellFormed(t)
    ensures Compile(Print(t)) == Ok(t)
  {
    if t != [] {
      var rest := t[1..];
      WellFormedTail(t);
      CompilePrint(rest);
      var tail := Print(rest);
      assert t == [t[0]] + rest;
      match t[0]
      case Char(c) =>
        if c == '{' {
          CompileEscapeStep(tail, rest);
        } else {
          if c == '\\' && rest != [] {
            assert t[1] == rest[0];
            assert tail[0] == PrintPiece(rest[0])[0];
          }
          CompileCharStep(c, tail, rest);
        }
      case Hole(name) =>
        assert t[0].Hole?;
        CompileHoleStep(name, tail, rest);
    }
  }

  /** Text escaped into a template source compiles back to itself and renders verbatim. */
  lemma EscapedTextRendersVerbatim(s: string, ctx: Context, fmt: Formatter)
    ensures Compile(Print(Text(s))) == Ok(Text(s))
    ensures Render(Text(s), ctx, fmt) == Ok(s)
  {
    CompilePrint(Text(s));
    RenderText(s, ctx, fmt);
  }

  /** Rendering a concatenation renders each part, the first error winning. */
  lemma {:induction false} RenderAppend(a: Template, b: Template, ctx: Context, fmt: Formatter)
    ensures Render(a + b, ctx, fmt) ==
            (var x :- Render(a, ctx, fmt); var y :- Render(b, ctx, fmt); Ok(x + y))
  {
    if a != [] {
      assert (a + b)[1..] == a[1..] + b;
      assert (a + b)[0] == a[0];
      RenderAppend(a[1..], b, ctx, fmt);
      var x, y := Render(a[1..], ctx, fmt), Render(b, ctx, fmt);
      var head := match a[0] case Char(c) => Ok([c]) case Hole(name) => Lookup(ctx, fmt, name);
      if head.Ok? && x.Ok? && y.Ok? {
        assert head.value + (x.value + y.value) == (head.value + x.value) + y.value;
      }
    } else {
      assert a + b == b;
      var r := Render(b, ctx, fmt);
      if r.Ok? {
        assert "" + r.value == r.value;
      }
    }
  }

  /** Literal text, braces included, renders to itself whatever the context. */
  lemma {:induction false} RenderText(s: string, ctx: Context, fmt: Formatter)
    ensures Render(Text(s), ctx, fmt) == Ok(s)
  {
    if s != [] {
      RenderText(s[1..], ctx, fmt);
      assert Text(s)[1..] == Text(s[1..]);
      assert [s[0]] + s[1..] == s;
    }
  }

  /** A render reads only the fields its placeholders name. */
  lemma {:induction false} RenderAgree(t: Template, ctx1: Context, ctx2: Context, fmt: Formatter)
    requires forall name | name in Holes(t) ::
               (name in ctx1 <==> name in ctx2) && (name in ctx1 ==> ctx1[name] == ctx2[name])
    ensures Render(t, ctx1, fmt) == Render(t, ctx2, fmt)
  {
    if t != [] {
      assert Holes(t) == (if t[0].Hole? then [t[0].name] else []) + Holes(t[1..]);
      RenderAgree(t[1..], ctx1, ctx2, fmt);
    }
  }

  /**
   * The library's template registry: templates are compiled when added and rendered by name
   * with the registry's formatter.
   */
  class TemplateRegistry {
    var templates: map<string, Template>
    const fmt: Formatter

    constructor (fmt: Formatter)
      ensures templates == map[] && this.fmt == fmt
    {
      templates := map[];
      this.fmt := fmt;
    }

    /** Compiles `source` and registers it under `name`; a parse error leaves the registry as it was. */
    method AddTemplate(name: string, source: string) returns (r: Result<(), TemplateError>)
      modifies this
      ensures r.Ok? <==> Compile(source).Ok?
      ensures r.Ok? ==> templates == old(templates)[name := Compile(source).value]
      ensures r.Err? ==> r.error == Compile(source).error && templates == old(templates)
    {
      var compiled := Compile(source);
      if compiled.Err? {
        return Err(compiled.error);
      }
      templates := templates[name := compiled.value];
      return Ok(());
    }

    /** Renders the template registered under `name`; an unregistered name is an error. */
    function RenderNamed(name: string, ctx: Context): Result<string, TemplateError>
      reads this
    {
      if name in templates then Render(templates[name], ctx, fmt) else Err(UnknownTemplate(name))
    }
  }
}
