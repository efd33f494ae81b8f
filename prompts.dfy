/** Prompt rendering and loading of `openextract/prompts/loader.py`.
    A template is text in Python's `str.format` syntax restricted to plain
    `{name}` fields and the `{{` / `}}` escapes; it is filled with the
    document's title and payload and with every entry of the context. The
    prompt directory is given as its list of files with their text. */
module Prompts {
  import opened Wrappers
  import opened Values
  import Pipeline

  // ---------------------------------------------------------------------
  // str.format
  // ---------------------------------------------------------------------

  /** Why `str.format` (or the call to it) raises. */
  datatype FormatError =
    | UnknownField(name: string)          // KeyError: no such keyword argument
    | SingleOpen                          // ValueError: a lone '{' at the end
    | SingleClose                         // ValueError: a lone '}'
    | UnclosedField                       // ValueError: no '}' after a '{'
    | BraceInFieldName                    // ValueError: '{' inside a field name
    | PositionalField(text: string)       // IndexError: `{}` or `{0}` with no positional arguments
    | UnsupportedField(text: string)      // a format spec, conversion, attribute or index
    | DuplicateKeyword(key: string)       // TypeError: a context key named `title` or `content`

  /** The position of the first '}' at or after `from`. */
  function IndexOfClose(s: string, from: nat): (r: Option<nat>)
    requires from <= |s|
    ensures r.Some? ==> from <= r.value < |s| && s[r.value] == '}'
                        && forall j :: from <= j < r.value ==> s[j] != '}'
    ensures r.None? ==> forall j :: from <= j < |s| ==> s[j] != '}'
    decreases |s| - from
  {
    if from == |s| then None
    else if s[from] == '}' then Some(from)
    else IndexOfClose(s, from + 1)
  }

  predicate AllDigits(t: string) {
    forall i :: 0 <= i < |t| ==> '0' <= t[i] <= '9'
  }

  /** The keyword a field names, or why the field is not a plain keyword. */
  function ClassifyField(text: string): Result<string, FormatError> {
    if ':' in text || '!' in text || '.' in text || '[' in text then Failure(UnsupportedField(text))
    else if '{' in text then Failure(BraceInFieldName)
    else if AllDigits(text) then Failure(PositionalField(text))
    else Success(text)
  }

  function Prefix(text: string, rest: Result<string, FormatError>): Result<string, FormatError> {
    match rest
    case Success(tail) => Success(text + tail)
    case Failure(e) => Failure(e)
  }

  /** `template.format(**args)`, scanned left to right: literal text is
      copied, `{{` and `}}` stand for one brace, and each field is looked up
      as soon as it is reached, so the first problem met is the one raised. */
  function Format(s: string, args: map<string, string>): Result<string, FormatError>
    decreases |s|
  {
    if s == [] then Success([])
    else if s[0] == '{' then
      if |s| == 1 then Failure(SingleOpen)
      else if s[1] == '{' then Prefix("{", Format(s[2..], args))
      else match IndexOfClose(s, 1)
        case None => Failure(UnclosedField)
        case Some(j) =>
          var name :- ClassifyField(s[1..j]);
          if name !in args then Failure(UnknownField(name))
          else Prefix(args[name], Format(s[j + 1..], args))
    else if s[0] == '}' then
      if |s| >= 2 && s[1] == '}' then Prefix("}", Format(s[2..], args)) else Failure(SingleClose)
    else Prefix([s[0]], Format(s[1..], args))
  }

  // ---------------------------------------------------------------------
  // The template as pieces: a reference reading of the syntax
  // ---------------------------------------------------------------------

  /** A template is a sequence of literal characters and named fields. */
  datatype Piece = Char(c: char) | Field(name: string)

  function PrependPiece(p: Piece, rest: Result<seq<Piece>, FormatError>): Result<seq<Piece>, FormatError> {
    match rest
    case Success(ps) => Success([p] + ps)
    case Failure(e) => Failure(e)
  }

  /** The pieces of a template, or why it is malformed. */
  function ParseTemplate(s: string): Result<seq<Piece>, FormatError>
    decreases |s|
  {
    if s == [] then Success([])
    else if s[0] == '{' then
      if |s| == 1 then Failure(SingleOpen)
      else if s[1] == '{' then PrependPiece(Char('{'), ParseTemplate(s[2..]))
      else match IndexOfClose(s, 1)
        case None => Failure(UnclosedField)
        case Some(j) =>
          var name :- ClassifyField(s[1..j]);
          PrependPiece(Field(name), ParseTemplate(s[j + 1..]))
    else if s[0] == '}' then
      if |s| >= 2 && s[1] == '}' then PrependPiece(Char('}'), ParseTemplate(s[2..])) else Failure(SingleClose)
    else PrependPiece(Char(s[0]), ParseTemplate(s[1..]))
  }

  /** The names the fields of a template refer to. */
  function FieldNames(pieces: seq<Piece>): set<string>
    decreases |pieces|
  {
    if pieces == [] then {}
    else (if pieces[0].Field? then {pieces[0].name} else {}) + FieldNames(pieces[1..])
  }

  /** The text of the pieces with every field replaced by its argument. */
  function Fill(pieces: seq<Piece>, args: map<string, string>): string
    requires FieldNames(pieces) <= args.Keys
    decreases |pieces|
  {
    if pieces == [] then []
    else
      (match pieces[0] case Char(c) => [c] case Field(name) => args[name])
      + Fill(pieces[1..], args)
  }

  /** The template text that reads back as the given pieces. */
  function Unparse(pieces: seq<Piece>): string
    decreases |pieces|
  {
    if pieces == [] then []
    else
      (match pieces[0]
       case Char(c) => if c == '{' then "{{" else if c == '}' then "}}" else [c]
       case Field(name) => "{" + name + "}")
      + Unparse(pieces[1..])
  }

  /** A plain keyword field name. */
  predicate ValidFieldName(name: string) {
    '}' !in name && ClassifyField(name) == Success(name)
  }

  /** Formatting is parsing followed by filling: it succeeds exactly when
      the template is well formed and every field it names is an argument,
      and then it yields the pieces with each field replaced by its
      argument. */
  lemma {:induction false} FormatIsParseThenFill(s: string, args: map<string, string>)
    ensures Format(s, args).Success? <==> ParseTemplate(s).Success? && FieldNames(ParseTemplate(s).value) <= args.Keys
    ensures Format(s, args).Success? ==> Format(s, args).value == Fill(ParseTemplate(s).value, args)
    decreases |s|
  {
    if s == [] {
    } else if s[0] == '{' {
      if |s| == 1 {
      } else if s[1] == '{' {
        FormatIsParseThenFill(s[2..], args);
        CharThenRest('{', ParseTemplate(s[2..]), args);
      } else {
        match IndexOfClose(s, 1)
        case None =>
        case Some(j) =>
          var c := ClassifyField(s[1..j]);
          if c.Success? {
            var name := c.value;
            FormatIsParseThenFill(s[j + 1..], args);
            var rest := ParseTemplate(s[j + 1..]);
            if rest.Success? {
              assert ([Field(name)] + rest.value)[1..] == rest.value;
              assert FieldNames([Field(name)] + rest.value) == {name} + FieldNames(rest.value);
            }
          }
      }
    } else if s[0] == '}' {
      if |s| >= 2 && s[1] == '}' {
        FormatIsParseThenFill(s[2..], args);
        CharThenRest('}', ParseTemplate(s[2..]), args);
      }
    } else {
      FormatIsParseThenFill(s[1..], args);
      CharThenRest(s[0], ParseTemplate(s[1..]), args);
    }
  }

  lemma CharThenRest(c: char, rest: Result<seq<Piece>, FormatError>, args: map<string, string>)
    ensures PrependPiece(Char(c), rest).Success? <==> rest.Success?
    ensures rest.Success? ==>
      var ps := PrependPiece(Char(c), rest).value;
      FieldNames(ps) == FieldNames(rest.value)
      && (FieldNames(ps) <= args.Keys ==> Fill(ps, args) == [c] + Fill(rest.value, args))
  {
    if rest.Success? {
      assert ([Char(c)] + rest.value)[1..] == rest.value;
    }
  }

  /** Reading back the text of well-formed pieces gives the same pieces. */
  lemma {:induction false} ParseUnparse(pieces: seq<Piece>)
    requires forall i :: 0 <= i < |pieces| && pieces[i].Field? ==> ValidFieldName(pieces[i].name)
    ensures ParseTemplate(Unparse(pieces)) == Success(pieces)
    decreases |pieces|
  {
    if pieces != [] {
      var rest := pieces[1..];
      ParseUnparse(rest);
      var tail := Unparse(rest);
      assert [pieces[0]] + rest == pieces;
      match pieces[0]
      case Char(c) => ParsesChar(c, tail);
      case Field(name) => ParsesField(name, tail);
    }
  }

  lemma ParsesChar(c: char, tail: string)
    ensures var text := if c == '{' then "{{" else if c == '}' then "}}" else [c];
      ParseTemplate(text + tail) == PrependPiece(Char(c), ParseTemplate(tail))
  {
    if c == '{' || c == '}' {
      assert ([c, c] + tail)[2..] == tail;
    } else {
      assert ([c] + tail)[1..] == tail;
    }
  }

  lemma ParsesField(name: string, tail: string)
    requires ValidFieldName(name)
    ensures ParseTemplate("{" + name + "}" + tail) == PrependPiece(Field(name), ParseTemplate(tail))
  {
    var s := "{" + name + "}" + tail;
    var j := |name| + 1;
    assert name != [] by { assert AllDigits([]); }
    assert s[1] == name[0] && s[j] == '}';
    assert s[1..j] == name && s[j + 1..] == tail;
    assert name[0] != '{' by { assert name[0] in name; }
    assert forall i :: 1 <= i < j ==> s[i] != '}' by {
      forall i | 1 <= i < j ensures s[i] != '}' {
        assert s[i] == name[i - 1] && name[i - 1] in name;
      }
    }
    assert IndexOfClose(s, 1) == Some(j);
  }

  // ---------------------------------------------------------------------
  // TemplatePrompt.render_input
  // ---------------------------------------------------------------------

  const DEFAULT_TEMPERATURE: real := 0.2

  /** `TemplatePrompt`: a prompt unit filled from a template file. */
  datatype TemplatePrompt = TemplatePrompt(name: string, section: string, template: string, temperature: real)

  /** The keyword arguments of the `format` call: `title`, `content` and
      every context entry, shown as Python's `str()` shows it (`toStr`). */
  function FormatArgs(document: Pipeline.Document, context: Pipeline.Context, toStr: Value -> string): (args: map<string, string>)
    ensures args.Keys == context.Keys + {"title", "content"}
    ensures args["title"] == document.title && args["content"] == document.payload
    ensures forall key :: key in context && key != "title" && key != "content" ==> args[key] == toStr(context[key])
  {
    (map key | key in context :: toStr(context[key]))["title" := document.title]["content" := document.payload]
  }

  /** The payload of a rendered prompt: one user message and the sampling
      temperature. */
  function UserMessage(text: string, temperature: real): Dict {
    map[
      "messages" := List([Obj(map["role" := Str("user"), "content" := Str(text)])]),
      "temperature" := Num(temperature)]
  }

  /** `TemplatePrompt.render_input`. A context key `title` or `content`
      clashes with the explicit keyword of the same name before anything
      is formatted. */
  function RenderInput(prompt: TemplatePrompt, document: Pipeline.Document, context: Pipeline.Context,
                       toStr: Value -> string): Result<Dict, FormatError>
  {
    if "title" in context then Failure(DuplicateKeyword("title"))
    else if "content" in context then Failure(DuplicateKeyword("content"))
    else
      var rendered :- Format(prompt.template, FormatArgs(document, context, toStr));
      Success(UserMessage(rendered, prompt.temperature))
  }

  /** Rendering succeeds exactly when no context key is `title` or
      `content`, the template is well formed, and every field it names is
      `title`, `content` or a context key; the payload is then one message
      with role "user" whose text is the template with each field replaced
      (title and content by the document's, any other by its context
      entry), plus the prompt's temperature. A well-formed template naming
      an absent entry fails with that entry's name, not another error. */
  lemma RenderInputContract(prompt: TemplatePrompt, document: Pipeline.Document, context: Pipeline.Context,
                            toStr: Value -> string)
    ensures var r := RenderInput(prompt, document, context, toStr);
      var pieces := ParseTemplate(prompt.template);
      var args := FormatArgs(document, context, toStr);
      && (r.Success? <==>
            "title" !in context && "content" !in context
            && pieces.Success? && FieldNames(pieces.value) <= context.Keys + {"title", "content"})
      && (r.Success? ==>
            r.value.Keys == {"messages", "temperature"}
            && r.value["messages"] == List([Obj(map["role" := Str("user"), "content" := Str(Fill(pieces.value, args))])])
            && r.value["temperature"] == Num(prompt.temperature))
      && ("title" in context || "content" in context ==> r.Failure? && r.error.DuplicateKeyword?)
      && (r.Failure? && "title" !in context && "content" !in context && pieces.Success? ==>
            r.error.UnknownField? && r.error.name in FieldNames(pieces.value) && r.error.name !in context)
  {
    var args := FormatArgs(document, context, toStr);
    FormatIsParseThenFill(prompt.template, args);
    if "title" !in context && "content" !in context && ParseTemplate(prompt.template).Success? {
      FormatUnknownField(prompt.template, args);
    }
  }

  /** On a well-formed template, formatting fails only on a name that is
      not an argument. */
  lemma {:induction false} FormatUnknownField(s: string, args: map<string, string>)
    requires ParseTemplate(s).Success?
    ensures Format(s, args).Failure? ==>
      Format(s, args).error.UnknownField?
      && Format(s, args).error.name in FieldNames(ParseTemplate(s).value)
      && Format(s, args).error.name !in args
    decreases |s|
  {
    if s == [] {
    } else if s[0] == '{' {
      if s[1] == '{' {
        FormatUnknownField(s[2..], args);
        CharThenRest('{', ParseTemplate(s[2..]), args);
      } else {
        var j := IndexOfClose(s, 1).value;
        var name := ClassifyField(s[1..j]).value;
        FormatUnknownField(s[j + 1..], args);
        var rest := ParseTemplate(s[j + 1..]).value;
        assert ([Field(name)] + rest)[1..] == rest;
        assert FieldNames([Field(name)] + rest) == {name} + FieldNames(rest);
      }
    } else if s[0] == '}' {
      FormatUnknownField(s[2..], args);
      CharThenRest('}', ParseTemplate(s[2..]), args);
    } else {
      FormatUnknownField(s[1..], args);
      CharThenRest(s[0], ParseTemplate(s[1..]), args);
    }
  }

  /** The exception a formatting failure is raised as. */
  function AsError(e: FormatError): Error {
    match e
    case UnknownField(name) => Error(KeyError, "'" + name + "'")
    case SingleOpen => Error(ValueError, "Single '{' encountered in format string")
    case SingleClose => Error(ValueError, "Single '}' encountered in format string")
    case UnclosedField => Error(ValueError, "expected '}' before end of string")
    case BraceInFieldName => Error(ValueError, "unexpected '{' in field name")
    case PositionalField(_) => Error(IndexError, "Replacement index 0 out of range for positional args tuple")
    case UnsupportedField(text) => Error(Unmodelled, "field {" + text + "}")
    case DuplicateKeyword(key) => Error(TypeError, "format() got multiple values for keyword argument '" + key + "'")
  }

  /** A template prompt as a step of the pipeline engine. */
  function AsPromptUnit(prompt: TemplatePrompt, toStr: Value -> string): Pipeline.PromptUnit {
    Pipeline.PromptUnit(prompt.name, prompt.section,
      (document: Pipeline.Document, context: Pipeline.Context) =>
        match RenderInput(prompt, document, context, toStr)
        case Success(payload) => Success(payload)
        case Failure(e) => Failure(AsError(e)))
  }

  /** Context visibility in a run: a template prompt at step `k` renders
      exactly when its template is well formed, no earlier successful step
      has the section `title` or `content`, and each field it names is
      `title`, `content` or the section of an earlier successful step of
      the same document. A field naming a section whose step failed (or has
      not run) makes the step raise a KeyError for that name. */
  lemma TemplateStepSeesEarlierSuccesses(policy: Pipeline.RenderPolicy, prompts: seq<Pipeline.PromptUnit>,
                                         provider: Pipeline.Adapter, document: Pipeline.Document, k: nat,
                                         prompt: TemplatePrompt, toStr: Value -> string)
    requires k < |prompts| && prompts[k] == AsPromptUnit(prompt, toStr)
    requires Pipeline.StateBefore(policy, prompts, provider, document, k).Success?
    ensures var st := Pipeline.StateBefore(policy, prompts, provider, document, k).value;
      |st.trace| == k &&
      var earlier := Pipeline.StoredSections(prompts[..k], st.trace);
      var pieces := ParseTemplate(prompt.template);
      var r := prompts[k].render(document, st.tags);
      && (r.Success? <==>
            "title" !in earlier && "content" !in earlier
            && pieces.Success? && FieldNames(pieces.value) <= earlier + {"title", "content"})
      && (r.Failure? && "title" !in earlier && "content" !in earlier && pieces.Success? ==>
            r.error.kind == KeyError)
  {
    Pipeline.StepAt(policy, prompts, provider, document, k);
    var st := Pipeline.StateBefore(policy, prompts, provider, document, k).value;
    RenderInputContract(prompt, document, st.tags, toStr);
  }

  /** A template made of one field. */
  lemma SingleFieldTemplate(name: string, args: map<string, string>)
    requires ValidFieldName(name)
    ensures name in args ==> Format("{" + name + "}", args) == Success(args[name])
    ensures name !in args ==> Format("{" + name + "}", args) == Failure(UnknownField(name))
  {
    var s := "{" + name + "}";
    ParsesField(name, "");
    assert s + "" == s;
    assert ParseTemplate("") == Success([]);
    assert [Field(name)] + [] == [Field(name)];
    assert ParseTemplate(s) == Success([Field(name)]);
    assert [Field(name)][1..] == [];
    assert FieldNames([Field(name)]) == {name};
    FormatIsParseThenFill(s, args);
    if name in args {
      assert Fill([Field(name)], args) == args[name] + [];
      assert args[name] + [] == args[name];
    } else {
      assert !(FieldNames([Field(name)]) <= args.Keys);
      FormatUnknownField(s, args);
      var e := Format(s, args).error;
      assert e.UnknownField? && e.name in {name};
      assert e == UnknownField(name);
    }
  }

  lemma PlainNames()
    ensures ValidFieldName("content") && ValidFieldName("summary")
  {
    assert !AllDigits("content") by { assert "content"[0] == 'c'; }
    assert !AllDigits("summary") by { assert "summary"[0] == 's'; }
  }

  /** The `summary` prompt, reading only the document's content, renders
      in the empty context. */
  lemma SummaryRenders(document: Pipeline.Document, toStr: Value -> string)
    ensures AsPromptUnit(TemplatePrompt("summary", "summary", "{content}", 0.2), toStr).render(document, map[])
            == Success(UserMessage(document.payload, 0.2))
  {
    var prompt := TemplatePrompt("summary", "summary", "{content}", 0.2);
    var args := FormatArgs(document, map[], toStr);
    PlainNames();
    SingleFieldTemplate("content", args);
    assert "{" + "content" + "}" == "{content}";
    assert Format("{content}", args) == Success(document.payload);
    assert RenderInput(prompt, document, map[], toStr) == Success(UserMessage(document.payload, 0.2));
  }

  /** The `tags` prompt, reading the `summary` section, fails to render in
      a context without it. */
  lemma TagsNeedSummary(document: Pipeline.Document, toStr: Value -> string)
    ensures AsPromptUnit(TemplatePrompt("tags", "tags", "{summary}", 0.2), toStr).render(document, map[])
            == Failure(Error(KeyError, "'summary'"))
  {
    var prompt := TemplatePrompt("tags", "tags", "{summary}", 0.2);
    var args := FormatArgs(document, map[], toStr);
    PlainNames();
    assert "summary" !in args;
    SingleFieldTemplate("summary", args);
    assert "{" + "summary" + "}" == "{summary}";
    assert Format("{summary}", args) == Failure(UnknownField("summary"));
    assert RenderInput(prompt, document, map[], toStr) == Failure(UnknownField("summary"));
    assert AsError(UnknownField("summary")) == Error(KeyError, "'" + "summary" + "'");
    assert "'" + "summary" + "'" == "'summary'";
  }

  /** The case the pipeline engine does not survive, on real template
      prompts: a `tags` step whose template reads the `summary` section,
      after the `summary` step's provider call failed. The KeyError from
      rendering ends the run, where recording it would have kept the
      document with both failures in its errors. */
  lemma FailedSectionAbortsRun(document: Pipeline.Document, provider: Pipeline.Adapter, toStr: Value -> string)
    requires forall prompt, d, payload :: provider(prompt, d, payload).Failure?
    ensures var summary := AsPromptUnit(TemplatePrompt("summary", "summary", "{content}", 0.2), toStr);
      var tags := AsPromptUnit(TemplatePrompt("tags", "tags", "{summary}", 0.2), toStr);
      var asWritten := Pipeline.RunAll(Pipeline.Propagate, [summary, tags], provider, [document]);
      var isolated := Pipeline.RunAll(Pipeline.Isolate, [summary, tags], provider, [document]);
      && asWritten == Failure(Error(KeyError, "'summary'"))
      && isolated.Success? && |isolated.value| == 1
      && isolated.value[0].structuredTags == map[]
      && |isolated.value[0].errors| == 2
      && isolated.value[0].errors[1] == Pipeline.ErrorEntry("tags", "'summary'")
  {
    var summary := AsPromptUnit(TemplatePrompt("summary", "summary", "{content}", 0.2), toStr);
    var tags := AsPromptUnit(TemplatePrompt("tags", "tags", "{summary}", 0.2), toStr);
    var missing := Error(KeyError, "'summary'");
    SummaryRenders(document, toStr);
    TagsNeedSummary(document, toStr);
    var payload := UserMessage(document.payload, 0.2);
    var answer := provider(summary, document, payload);
    assert answer.Failure?;
    var st1 := Pipeline.RecordFailure(Pipeline.Fresh, summary, answer.error);
    var st2 := Pipeline.RecordFailure(st1, tags, missing);
    forall policy: Pipeline.RenderPolicy
      ensures Pipeline.Exec(policy, [summary, tags], provider, document, Pipeline.Fresh)
              == Pipeline.Exec(policy, [tags], provider, document, st1)
    {
      assert Pipeline.Step(policy, summary, provider, document, Pipeline.Fresh) == Success(st1);
      assert [summary, tags][1..] == [tags];
    }
    assert [tags][1..] == [] && [document][1..] == [];
    assert Pipeline.Exec(Pipeline.Propagate, [tags], provider, document, st1) == Failure(missing);
    assert Pipeline.Exec(Pipeline.Isolate, [tags], provider, document, st1) == Success(st2);
    var result := Pipeline.PipelineResult(document.docId, document.title, st2.tags, st2.errors);
    assert Pipeline.RunDocument(Pipeline.Isolate, [summary, tags], provider, document) == Success(result);
    assert Pipeline.RunAll(Pipeline.Isolate, [summary, tags], provider, [document]) == Success([result] + []);
  }

  // ---------------------------------------------------------------------
  // PromptLoader
  // ---------------------------------------------------------------------

  /** A file of the prompt directory with its text. */
  datatype PromptFile = PromptFile(name: string, text: string)

  /** `PromptLoader`: the directory and the per-prompt temperatures. */
  datatype PromptLoader = PromptLoader(promptsDir: string, temperatureOverrides: map<string, real>)

  /** `PromptLoader.__init__`: missing overrides mean none; a directory
      that does not exist is an error. */
  function NewPromptLoader(promptsDir: string, overrides: Option<map<string, real>>, directories: set<string>)
    : (r: Result<PromptLoader, Error>)
    ensures r.Success? <==> promptsDir in directories
    ensures r.Success? ==> r.value.promptsDir == promptsDir
                           && r.value.temperatureOverrides == overrides.GetOr(map[])
    ensures r.Failure? ==> r.error.kind == FileNotFoundError
  {
    if promptsDir !in directories then Failure(Error(FileNotFoundError, "Prompts directory not found: " + promptsDir))
    else Success(PromptLoader(promptsDir, overrides.GetOr(map[])))
  }

  /** Python's string order: lexicographic by code point. */
  predicate NameLeq(a: string, b: string)
    decreases |a|
  {
    a == [] || (b != [] && (a[0] < b[0] || (a[0] == b[0] && NameLeq(a[1..], b[1..]))))
  }

  lemma {:induction false} NameLeqTotal(a: string, b: string)
    ensures NameLeq(a, b) || NameLeq(b, a)
    decreases |a|
  {
    if a != [] && b != [] && a[0] == b[0] {
      NameLeqTotal(a[1..], b[1..]);
    }
  }

  lemma {:induction false} NameLeqAntisymmetric(a: string, b: string)
    requires NameLeq(a, b) && NameLeq(b, a)
    ensures a == b
    decreases |a|
  {
    if a != [] {
      NameLeqAntisymmetric(a[1..], b[1..]);
      assert a == [a[0]] + a[1..] && b == [b[0]] + b[1..];
    }
  }

  lemma {:induction false} NameLeqTransitive(a: string, b: string, c: string)
    requires NameLeq(a, b) && NameLeq(b, c)
    ensures NameLeq(a, c)
    decreases |a|
  {
    if a != [] && a[0] == b[0] && b[0] == c[0] {
      NameLeqTransitive(a[1..], b[1..], c[1..]);
    }
  }

  ghost predicate SortedByName(files: seq<PromptFile>) {
    forall i, j :: 0 <= i < j < |files| ==> NameLeq(files[i].name, files[j].name)
  }

  /** Insertion into a list sorted by name. */
  function Insert(f: PromptFile, sorted: seq<PromptFile>): (r: seq<PromptFile>)
    ensures multiset(r) == multiset(sorted) + multiset{f}
    decreases |sorted|
  {
    if sorted == [] then [f]
    else if NameLeq(f.name, sorted[0].name) then [f] + sorted
    else
      assert sorted == [sorted[0]] + sorted[1..];
      [sorted[0]] + Insert(f, sorted[1..])
  }

  lemma {:induction false} InsertSorted(f: PromptFile, sorted: seq<PromptFile>)
    requires SortedByName(sorted)
    ensures SortedByName(Insert(f, sorted))
    decreases |sorted|
  {
    if sorted == [] {
    } else if NameLeq(f.name, sorted[0].name) {
      forall j | 0 < j < |sorted| ensures NameLeq(f.name, sorted[j].name) {
        NameLeqTransitive(f.name, sorted[0].name, sorted[j].name);
      }
    } else {
      var tail := sorted[1..];
      var rest := Insert(f, tail);
      InsertSorted(f, tail);
      NameLeqTotal(f.name, sorted[0].name);
      forall x | x in rest ensures NameLeq(sorted[0].name, x.name) {
        assert x in multiset(rest);
        if x != f {
          assert x in multiset(tail);
          var j :| 0 <= j < |tail| && tail[j] == x;
          assert sorted[j + 1] == x;
        }
      }
      var r := [sorted[0]] + rest;
      forall i, j | 0 <= i < j < |r| ensures NameLeq(r[i].name, r[j].name) {
        if i == 0 {
          assert r[j] == rest[j - 1] && rest[j - 1] in rest;
        } else {
          assert r[i] == rest[i - 1] && r[j] == rest[j - 1];
        }
      }
    }
  }

  /** `sorted()` of the paths of one directory, which orders them by name. */
  function SortByName(files: seq<PromptFile>): (r: seq<PromptFile>)
    ensures multiset(r) == multiset(files)
    decreases |files|
  {
    if files == [] then []
    else
      assert files == [files[0]] + files[1..];
      Insert(files[0], SortByName(files[1..]))
  }

  lemma {:induction false} SortByNameSorted(files: seq<PromptFile>)
    ensures SortedByName(SortByName(files))
    decreases |files|
  {
    if files != [] {
      SortByNameSorted(files[1..]);
      InsertSorted(files[0], SortByName(files[1..]));
    }
  }

  /** Files with the same name are the same file, as in one directory. */
  predicate NamesIdentifyFiles(files: seq<PromptFile>) {
    forall x, y :: x in files && y in files && x.name == y.name ==> x == y
  }

  /** Two name-sorted lists of the same files start with the same file. */
  lemma SortedSameHead(a: seq<PromptFile>, b: seq<PromptFile>)
    requires a != [] && b != []
    requires SortedByName(a) && SortedByName(b) && multiset(a) == multiset(b) && NamesIdentifyFiles(a)
    ensures a[0] == b[0]
  {
    assert a[0] in b by { assert a[0] in multiset(b); }
    assert b[0] in a by { assert b[0] in multiset(a); }
    var i :| 0 <= i < |b| && b[i] == a[0];
    var j :| 0 <= j < |a| && a[j] == b[0];
    assert NameLeq(a[0].name, b[0].name) by {
      if 0 < j { assert NameLeq(a[0].name, a[j].name); } else { NameLeqTotal(a[0].name, a[0].name); }
    }
    assert NameLeq(b[0].name, a[0].name) by {
      if 0 < i { assert NameLeq(b[0].name, b[i].name); } else { NameLeqTotal(b[0].name, b[0].name); }
    }
    NameLeqAntisymmetric(a[0].name, b[0].name);
  }

  lemma SameTail(a: seq<PromptFile>, b: seq<PromptFile>)
    requires a != [] && b != [] && a[0] == b[0] && multiset(a) == multiset(b)
    ensures multiset(a[1..]) == multiset(b[1..])
  {
    assert a == [a[0]] + a[1..] && b == [b[0]] + b[1..];
    assert multiset(a[1..]) == multiset(a) - multiset{a[0]};
    assert multiset(b[1..]) == multiset(b) - multiset{b[0]};
  }

  /** A name-sorted list is determined by the files it holds, when files
      with the same name are the same file. */
  lemma {:induction false} SortedByNameUnique(a: seq<PromptFile>, b: seq<PromptFile>)
    requires SortedByName(a) && SortedByName(b) && multiset(a) == multiset(b) && NamesIdentifyFiles(a)
    ensures a == b
    decreases |a|
  {
    assert |a| == |multiset(a)| == |b|;
    if a != [] {
      SortedSameHead(a, b);
      SameTail(a, b);
      assert NamesIdentifyFiles(a[1..]) by {
        forall x | x in a[1..] ensures x in a { }
      }
      SortedByNameUnique(a[1..], b[1..]);
      assert a == [a[0]] + a[1..] && b == [b[0]] + b[1..];
    }
  }

  /** The name ends with `suffix`. */
  predicate EndsWith(name: string, suffix: string) {
    |suffix| <= |name| && name[|name| - |suffix|..] == suffix
  }

  /** `glob("*" + suffix)` over the directory's files, in listing order. */
  function Glob(files: seq<PromptFile>, suffix: string): (r: seq<PromptFile>)
    ensures forall f :: f in r <==> f in files && EndsWith(f.name, suffix)
    decreases |files|
  {
    if files == [] then []
    else
      assert files == [files[0]] + files[1..];
      (if EndsWith(files[0].name, suffix) then [files[0]] else []) + Glob(files[1..], suffix)
  }

  /** How often `glob` yields a file: as often as the directory lists it
      when its name has the suffix, else never. */
  lemma {:induction false} GlobCount(files: seq<PromptFile>, suffix: string, x: PromptFile)
    ensures multiset(Glob(files, suffix))[x] == if EndsWith(x.name, suffix) then multiset(files)[x] else 0
    decreases |files|
  {
    if files != [] {
      GlobCount(files[1..], suffix, x);
      assert files == [files[0]] + files[1..];
      assert multiset(files) == multiset([files[0]]) + multiset(files[1..]);
    }
  }

  lemma GlobPermutation(f1: seq<PromptFile>, f2: seq<PromptFile>, suffix: string)
    requires multiset(f1) == multiset(f2)
    ensures multiset(Glob(f1, suffix)) == multiset(Glob(f2, suffix))
  {
    forall x ensures multiset(Glob(f1, suffix))[x] == multiset(Glob(f2, suffix))[x] {
      GlobCount(f1, suffix, x);
      GlobCount(f2, suffix, x);
    }
  }

  /** The position of the last '.' in `name`, as `str.rfind`. */
  function LastDot(name: string): (r: Option<nat>)
    ensures r.Some? ==> r.value < |name| && name[r.value] == '.'
                        && forall j :: r.value < j < |name| ==> name[j] != '.'
    ensures r.None? ==> '.' !in name
    decreases |name|
  {
    if name == [] then None
    else if name[|name| - 1] == '.' then Some(|name| - 1)
    else
      var r := LastDot(name[..|name| - 1]);
      assert name == name[..|name| - 1] + [name[|name| - 1]];
      r
  }

  /** `Path.stem`: the name without its last suffix. A leading dot does not
      start a suffix, and a trailing dot is not one. */
  function Stem(name: string): string {
    match LastDot(name)
    case Some(i) => if 0 < i < |name| - 1 then name[..i] else name
    case None => name
  }

  /** A name ending in `suffix`, a dot followed by dot-free text, whose
      dot is not the first character: its stem drops exactly the suffix. */
  lemma StemDropsSuffix(name: string, suffix: string)
    requires |suffix| >= 2 && suffix[0] == '.' && '.' !in suffix[1..]
    requires EndsWith(name, suffix) && |name| > |suffix|
    ensures Stem(name) == name[..|name| - |suffix|]
  {
    var i := |name| - |suffix|;
    assert name[i..] == suffix;
    assert name[i] == '.';
    forall j | i < j < |name| ensures name[j] != '.' {
      assert name[j] == suffix[j - i] == suffix[1..][j - i - 1];
    }
    var r := LastDot(name);
    assert r == Some(i) by {
      assert name[i] in name;
    }
  }

  /** The stem of every prompt file the loader reads is its name without
      the extension, as long as the name is more than the extension. */
  lemma StemOfPromptFile(name: string)
    ensures EndsWith(name, ".txt") && |name| > 4 ==> Stem(name) == name[..|name| - 4]
    ensures EndsWith(name, ".md") && |name| > 3 ==> Stem(name) == name[..|name| - 3]
  {
    assert ".txt"[1..] == "txt" && ".md"[1..] == "md";
    if EndsWith(name, ".txt") && |name| > 4 {
      StemDropsSuffix(name, ".txt");
    }
    if EndsWith(name, ".md") && |name| > 3 {
      StemDropsSuffix(name, ".md");
    }
  }

  lemma StemExamples()
    ensures Stem("summary.txt") == "summary"
    ensures Stem("a.b.md") == "a.b"
    ensures Stem(".txt") == ".txt"
    ensures Stem("tags") == "tags"
  {
    assert LastDot("summary.txt") == Some(7) by {
      assert "summary.txt"[..10] == "summary.tx";
      assert "summary.tx"[..9] == "summary.t";
      assert "summary.t"[..8] == "summary.";
    }
    assert LastDot("a.b.md") == Some(3) by {
      assert "a.b.md"[..5] == "a.b.m";
      assert "a.b.m"[..4] == "a.b.";
    }
    assert LastDot(".txt") == Some(0) by {
      assert ".txt"[..3] == ".tx";
      assert ".tx"[..2] == ".t";
      assert ".t"[..1] == ".";
    }
    assert "summary.txt"[..7] == "summary";
    assert "a.b.md"[..3] == "a.b";
  }

  /** `_load_prompt_file`: name and section are the file's stem; the
      temperature is the configured override, else 0.2. */
  function LoadPromptFile(loader: PromptLoader, file: PromptFile): (p: TemplatePrompt)
    ensures p.name == Stem(file.name) && p.section == p.name && p.template == file.text
    ensures p.name in loader.temperatureOverrides ==> p.temperature == loader.temperatureOverrides[p.name]
    ensures p.name !in loader.temperatureOverrides ==> p.temperature == 0.2
  {
    var name := Stem(file.name);
    TemplatePrompt(name, name, file.text, TemperatureFor(loader.temperatureOverrides, name))
  }

  function TemperatureFor(overrides: map<string, real>, name: string): real {
    if name in overrides then overrides[name] else DEFAULT_TEMPERATURE
  }

  /** The files `load_prompts` reads, in order: the sorted `.txt` files,
      or the sorted `.md` files when there is no `.txt` file. */
  function SelectedFiles(files: seq<PromptFile>): seq<PromptFile> {
    var txt := SortByName(Glob(files, ".txt"));
    if txt != [] then txt else SortByName(Glob(files, ".md"))
  }

  /** The prompts of the given files, in the same order. */
  function LoadAll(loader: PromptLoader, files: seq<PromptFile>): (r: seq<TemplatePrompt>)
    ensures |r| == |files|
    ensures forall i :: 0 <= i < |files| ==> r[i] == LoadPromptFile(loader, files[i])
    decreases |files|
  {
    if files == [] then []
    else LoadAll(loader, files[..|files| - 1]) + [LoadPromptFile(loader, files[|files| - 1])]
  }

  /** One pass of `load_prompts` over a sorted listing: a prompt per
      file, appended in order. */
  method LoadEach(loader: PromptLoader, files: seq<PromptFile>) returns (prompts: seq<TemplatePrompt>)
    ensures prompts == LoadAll(loader, files)
  {
    prompts := [];
    for i := 0 to |files|
      invariant prompts == LoadAll(loader, files[..i])
    {
      assert files[..i + 1][..i] == files[..i];
      prompts := prompts + [LoadPromptFile(loader, files[i])];
    }
    assert files[..|files|] == files;
  }

  /** `load_prompts`. */
  method LoadPrompts(loader: PromptLoader, files: seq<PromptFile>) returns (prompts: seq<TemplatePrompt>)
    ensures prompts == LoadAll(loader, SelectedFiles(files))
  {
    var txt := SortByName(Glob(files, ".txt"));
    prompts := LoadEach(loader, txt);
    if |prompts| == 0 {
      var md := SortByName(Glob(files, ".md"));
      prompts := LoadEach(loader, md);
    }
  }

  /** Sorting keeps exactly the files it is given. */
  lemma SortKeepsFiles(files: seq<PromptFile>)
    ensures forall f :: f in SortByName(files) <==> f in files
  {
    var sorted := SortByName(files);
    forall f ensures f in sorted <==> f in files {
      assert f in sorted <==> f in multiset(sorted);
      assert f in files <==> f in multiset(files);
    }
  }

  /** The files `load_prompts` reads are in name order, and they are
      exactly the `.txt` files when there is one, else exactly the `.md`
      files. */
  lemma SelectedFilesContract(files: seq<PromptFile>)
    ensures SortedByName(SelectedFiles(files))
    ensures (exists f :: f in files && EndsWith(f.name, ".txt")) ==>
      forall f :: f in SelectedFiles(files) <==> f in files && EndsWith(f.name, ".txt")
    ensures !(exists f :: f in files && EndsWith(f.name, ".txt")) ==>
      forall f :: f in SelectedFiles(files) <==> f in files && EndsWith(f.name, ".md")
  {
    var txt := Glob(files, ".txt");
    var md := Glob(files, ".md");
    SortKeepsFiles(txt);
    SortKeepsFiles(md);
    SortByNameSorted(txt);
    SortByNameSorted(md);
    if SortByName(txt) != [] {
      assert SelectedFiles(files) == SortByName(txt);
      assert SortByName(txt)[0] in files && EndsWith(SortByName(txt)[0].name, ".txt");
    } else {
      assert SelectedFiles(files) == SortByName(md);
      assert forall f :: f in files ==> !EndsWith(f.name, ".txt");
    }
  }

  /** What `load_prompts` returns: one prompt per selected file, in the
      files' name order; each prompt is named after its file's stem, uses
      it as section, holds the file's text as template, and has the
      override temperature when one is configured, else 0.2. */
  lemma LoadPromptsContract(loader: PromptLoader, files: seq<PromptFile>)
    ensures var selected := SelectedFiles(files);
      var prompts := LoadAll(loader, selected);
      && SortedByName(selected)
      && |prompts| == |selected|
      && forall i :: 0 <= i < |prompts| ==>
           prompts[i].name == Stem(selected[i].name)
           && prompts[i].section == prompts[i].name
           && prompts[i].template == selected[i].text
           && prompts[i].temperature == TemperatureFor(loader.temperatureOverrides, prompts[i].name)
  {
    SelectedFilesContract(files);
  }

  /** The prompts and their order do not depend on the order in which the
      directory lists its files: any two listings of the same files select
      the same files in the same order. */
  lemma SelectionIgnoresListingOrder(f1: seq<PromptFile>, f2: seq<PromptFile>)
    requires multiset(f1) == multiset(f2) && NamesIdentifyFiles(f1)
    ensures SelectedFiles(f1) == SelectedFiles(f2)
  {
    SortedGlobsAgree(f1, f2, ".txt");
    SortedGlobsAgree(f1, f2, ".md");
  }

  lemma SortedGlobsAgree(f1: seq<PromptFile>, f2: seq<PromptFile>, suffix: string)
    requires multiset(f1) == multiset(f2) && NamesIdentifyFiles(f1)
    ensures SortByName(Glob(f1, suffix)) == SortByName(Glob(f2, suffix))
  {
    var a := SortByName(Glob(f1, suffix));
    var b := SortByName(Glob(f2, suffix));
    GlobPermutation(f1, f2, suffix);
    SortByNameSorted(Glob(f1, suffix));
    SortByNameSorted(Glob(f2, suffix));
    SortKeepsFiles(Glob(f1, suffix));
    assert NamesIdentifyFiles(a) by {
      forall x | x in a ensures x in f1 { }
    }
    SortedByNameUnique(a, b);
  }
}
