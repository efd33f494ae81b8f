/** The pipeline engine of `openextract/pipelines/base.py`: documents
    are run one after another through the configured prompt units; each
    successful step stores the provider's answer under the prompt's section
    both in the document's structured tags and in the running context that
    later prompts render against; a failed provider call is recorded and
    the loop moves on. A failure while rendering is not caught: it ends the
    whole run. */
module Pipeline {
  import opened Wrappers
  import opened Values

  /** `Document`. */
  datatype Document = Document(docId: string, title: string, payload: string, meta: Dict)

  /** The running context: section name to that step's parsed result. */
  type Context = Dict

  /** A prompt unit: its name, its section and its `render_input`, which
      builds the provider payload from the document and the context or
      raises. */
  datatype PromptUnit = PromptUnit(name: string, section: string, render: (Document, Context) -> Result<Dict, Error>)

  /** The provider adapter's `invoke(prompt, document, payload)`. */
  type Adapter = (PromptUnit, Document, Dict) -> Result<Value, Error>

  /** One `{"prompt": ..., "error": ...}` entry. */
  datatype ErrorEntry = ErrorEntry(prompt: string, error: string)

  /** `PipelineResult`. */
  datatype PipelineResult = PipelineResult(docId: string, title: string, structuredTags: Dict, errors: seq<ErrorEntry>)

  // ---------------------------------------------------------------------
  // The execution of one document, as a function
  // ---------------------------------------------------------------------

  /** What happens to an exception from rendering: as written it escapes
      the run (`Propagate`); `Isolate` records it as a step failure, the
      way the per-step `try` handles a provider exception
      (`openextract/pipelines/base.py:76-80`). */
  datatype RenderPolicy = Propagate | Isolate

  /** How one step ended: the stored answer, or the recorded message. */
  datatype StepOutcome = Stored(value: Value) | Failed(message: string)

  /** The state of one document's run: the structured tags (equal to the
      context), the errors so far, and the outcome of every step so far. */
  datatype DocState = DocState(tags: Dict, errors: seq<ErrorEntry>, trace: seq<StepOutcome>)

  /** The state at the start of every document. */
  const Fresh: DocState := DocState(map[], [], [])

  function RecordFailure(st: DocState, prompt: PromptUnit, e: Error): DocState {
    DocState(st.tags, st.errors + [ErrorEntry(prompt.name, e.message)], st.trace + [Failed(e.message)])
  }

  /** One step: render against the current context, then invoke. */
  function Step(policy: RenderPolicy, prompt: PromptUnit, provider: Adapter, document: Document, st: DocState)
    : Result<DocState, Error>
  {
    match prompt.render(document, st.tags)
    case Failure(e) =>
      if policy == Propagate then Failure(e) else Success(RecordFailure(st, prompt, e))
    case Success(payload) =>
      match provider(prompt, document, payload)
      case Failure(e) => Success(RecordFailure(st, prompt, e))
      case Success(v) => Success(DocState(st.tags[prompt.section := v], st.errors, st.trace + [Stored(v)]))
  }

  /** The steps of `prompts`, in order, from state `st`. */
  function Exec(policy: RenderPolicy, prompts: seq<PromptUnit>, provider: Adapter, document: Document, st: DocState)
    : Result<DocState, Error>
    decreases |prompts|
  {
    if prompts == [] then Success(st)
    else
      var next :- Step(policy, prompts[0], provider, document, st);
      Exec(policy, prompts[1..], provider, document, next)
  }

  /** The result for one document. */
  function RunDocument(policy: RenderPolicy, prompts: seq<PromptUnit>, provider: Adapter, document: Document)
    : Result<PipelineResult, Error>
  {
    var st :- Exec(policy, prompts, provider, document, Fresh);
    Success(PipelineResult(document.docId, document.title, st.tags, st.errors))
  }

  /** The results for all documents; the first escaping exception ends it. */
  function RunAll(policy: RenderPolicy, prompts: seq<PromptUnit>, provider: Adapter, documents: seq<Document>)
    : Result<seq<PipelineResult>, Error>
    decreases |documents|
  {
    if documents == [] then Success([])
    else
      var first :- RunDocument(policy, prompts, provider, documents[0]);
      var rest :- RunAll(policy, prompts, provider, documents[1..]);
      Success([first] + rest)
  }

  function Prepend(done: seq<PipelineResult>, rest: Result<seq<PipelineResult>, Error>): Result<seq<PipelineResult>, Error> {
    match rest
    case Success(rs) => Success(done + rs)
    case Failure(e) => Failure(e)
  }

  lemma PrependNothing(rest: Result<seq<PipelineResult>, Error>)
    ensures Prepend([], rest) == rest
  {
    if rest.Success? {
      assert [] + rest.value == rest.value;
    }
  }

  lemma PrependTwice(done: seq<PipelineResult>, next: PipelineResult, rest: Result<seq<PipelineResult>, Error>)
    ensures Prepend(done, Prepend([next], rest)) == Prepend(done + [next], rest)
  {
    if rest.Success? {
      assert done + ([next] + rest.value) == (done + [next]) + rest.value;
    }
  }

  // ---------------------------------------------------------------------
  // The engine object
  // ---------------------------------------------------------------------

  class BasePipeline {
    /** The prompt list, materialised once at construction. */
    var prompts: seq<PromptUnit>
    var provider: Adapter

    constructor (prompts: seq<PromptUnit>, provider: Adapter)
      ensures this.prompts == prompts && this.provider == provider
    {
      this.prompts := prompts;
      this.provider := provider;
    }

    /** `run`: fresh tags, context and errors per document; each prompt
        rendered, then invoked inside a `try`. */
    method Run(documents: seq<Document>) returns (r: Result<seq<PipelineResult>, Error>)
      ensures r == RunAll(Propagate, prompts, provider, documents)
    {
      var results: seq<PipelineResult> := [];
      assert documents[0..] == documents;
      PrependNothing(RunAll(Propagate, prompts, provider, documents));
      for d := 0 to |documents|
        invariant RunAll(Propagate, prompts, provider, documents)
                  == Prepend(results, RunAll(Propagate, prompts, provider, documents[d..]))
      {
        var document := documents[d];
        var structuredSections: Dict := map[];
        var context: Dict := map[];
        var errors: seq<ErrorEntry> := [];
        ghost var trace: seq<StepOutcome> := [];
        for k := 0 to |prompts|
          invariant structuredSections == context
          invariant Exec(Propagate, prompts, provider, document, Fresh)
                    == Exec(Propagate, prompts[k..], provider, document, DocState(context, errors, trace))
        {
          var prompt := prompts[k];
          var payload := prompt.render(document, context);
          if payload.Failure? {
            // the exception is raised outside the try: it leaves `run`
            assert documents[d..][0] == document;
            return Failure(payload.error);
          }
          var response := provider(prompt, document, payload.value);
          if response.Failure? {
            errors := errors + [ErrorEntry(prompt.name, response.error.message)];
            trace := trace + [Failed(response.error.message)];
            continue;
          }
          structuredSections := structuredSections[prompt.section := response.value];
          context := context[prompt.section := response.value];
          trace := trace + [Stored(response.value)];
        }
        assert prompts[|prompts|..] == [];
        var result := PipelineResult(document.docId, document.title, structuredSections, errors);
        assert RunDocument(Propagate, prompts, provider, document) == Success(result);
        assert documents[d..][0] == document && documents[d..][1..] == documents[d + 1..];
        PrependTwice(results, result, RunAll(Propagate, prompts, provider, documents[d + 1..]));
        results := results + [result];
      }
      assert documents[|documents|..] == [];
      assert results + [] == results;
      return Success(results);
    }
  }

  // ---------------------------------------------------------------------
  // Across documents
  // ---------------------------------------------------------------------

  /** One result per document, in input order, each carrying its own
      document's id and title and equal to what that document alone
      produces; the run fails exactly when some document's run fails, with
      the exception of the first such document. */
  lemma {:induction false} RunAllPerDocument(policy: RenderPolicy, prompts: seq<PromptUnit>, provider: Adapter, documents: seq<Document>)
    ensures var r := RunAll(policy, prompts, provider, documents);
      && (r.Success? <==> forall i :: 0 <= i < |documents| ==> RunDocument(policy, prompts, provider, documents[i]).Success?)
      && (r.Success? ==>
            |r.value| == |documents|
            && forall i :: 0 <= i < |documents| ==>
                 r.value[i] == RunDocument(policy, prompts, provider, documents[i]).value
                 && r.value[i].docId == documents[i].docId
                 && r.value[i].title == documents[i].title)
      && (r.Failure? ==>
            exists j :: 0 <= j < |documents|
              && (forall i :: 0 <= i < j ==> RunDocument(policy, prompts, provider, documents[i]).Success?)
              && RunDocument(policy, prompts, provider, documents[j]) == Failure(r.error))
    decreases |documents|
  {
    if documents != [] {
      var tail := documents[1..];
      RunAllPerDocument(policy, prompts, provider, tail);
      assert forall i :: 1 <= i < |documents| ==> documents[i] == tail[i - 1];
      var first := RunDocument(policy, prompts, provider, documents[0]);
      var r := RunAll(policy, prompts, provider, documents);
      if first.Success? && RunAll(policy, prompts, provider, tail).Failure? {
        var j :| 0 <= j < |tail|
          && (forall i :: 0 <= i < j ==> RunDocument(policy, prompts, provider, tail[i]).Success?)
          && RunDocument(policy, prompts, provider, tail[j]) == Failure(r.error);
        assert RunDocument(policy, prompts, provider, documents[j + 1]) == Failure(r.error);
      } else if first.Failure? {
        assert RunDocument(policy, prompts, provider, documents[0]) == Failure(r.error);
      }
    }
  }

  /** No state leaks between documents: running two batches together gives
      the concatenation of running them apart. */
  lemma {:induction false} RunAllConcat(policy: RenderPolicy, prompts: seq<PromptUnit>, provider: Adapter,
                                       d1: seq<Document>, d2: seq<Document>)
    ensures RunAll(policy, prompts, provider, d1 + d2)
            == match RunAll(policy, prompts, provider, d1)
               case Failure(e) => Failure(e)
               case Success(r1) => Prepend(r1, RunAll(policy, prompts, provider, d2))
    decreases |d1|
  {
    if d1 == [] {
      assert d1 + d2 == d2;
      match RunAll(policy, prompts, provider, d2)
      case Success(r2) => assert [] + r2 == r2;
      case Failure(_) =>
    } else {
      assert (d1 + d2)[0] == d1[0] && (d1 + d2)[1..] == d1[1..] + d2;
      RunAllConcat(policy, prompts, provider, d1[1..], d2);
      match RunAll(policy, prompts, provider, d1[1..])
      case Failure(_) =>
      case Success(r1) =>
        match RunAll(policy, prompts, provider, d2)
        case Failure(_) =>
        case Success(r2) =>
          var first := RunDocument(policy, prompts, provider, d1[0]);
          if first.Success? {
            assert [first.value] + (r1 + r2) == ([first.value] + r1) + r2;
          }
    }
  }

  // ---------------------------------------------------------------------
  // Within one document
  // ---------------------------------------------------------------------

  /** The error entries of the failed steps, in step order. */
  function FailedEntries(prompts: seq<PromptUnit>, trace: seq<StepOutcome>): (entries: seq<ErrorEntry>)
    requires |prompts| == |trace|
    decreases |trace|
  {
    if trace == [] then []
    else
      var n := |trace| - 1;
      FailedEntries(prompts[..n], trace[..n])
      + (if trace[n].Failed? then [ErrorEntry(prompts[n].name, trace[n].message)] else [])
  }

  /** The number of successful steps. */
  function CountStored(trace: seq<StepOutcome>): nat
    decreases |trace|
  {
    if trace == [] then 0
    else CountStored(trace[..|trace| - 1]) + (if trace[|trace| - 1].Stored? then 1 else 0)
  }

  /** The tags the successful steps leave, each section holding the
      answer of the last successful step that has it. */
  function TagsOf(prompts: seq<PromptUnit>, trace: seq<StepOutcome>): Dict
    requires |prompts| == |trace|
    decreases |trace|
  {
    if trace == [] then map[]
    else
      var n := |trace| - 1;
      var before := TagsOf(prompts[..n], trace[..n]);
      if trace[n].Stored? then before[prompts[n].section := trace[n].value] else before
  }

  /** The sections of the successful steps. */
  ghost function StoredSections(prompts: seq<PromptUnit>, trace: seq<StepOutcome>): set<string>
    requires |prompts| == |trace|
  {
    set i | 0 <= i < |trace| && trace[i].Stored? :: prompts[i].section
  }

  /** Step `i` succeeded and no later successful step has its section. */
  ghost predicate LastStore(prompts: seq<PromptUnit>, trace: seq<StepOutcome>, i: int)
    requires |prompts| == |trace|
  {
    0 <= i < |trace| && trace[i].Stored?
    && forall j :: i < j < |trace| && trace[j].Stored? ==> prompts[j].section != prompts[i].section
  }

  /** The state accounts for the steps `done` by their outcomes: one
      outcome per step, the errors of the failed ones, the tags of the
      successful ones. */
  ghost predicate Accounted(done: seq<PromptUnit>, st: DocState) {
    && |st.trace| == |done|
    && st.errors == FailedEntries(done, st.trace)
    && st.tags == TagsOf(done, st.trace)
  }

  lemma {:induction false} FailedPlusStored(prompts: seq<PromptUnit>, trace: seq<StepOutcome>)
    requires |prompts| == |trace|
    ensures |FailedEntries(prompts, trace)| + CountStored(trace) == |trace|
    decreases |trace|
  {
    if trace != [] {
      var n := |trace| - 1;
      FailedPlusStored(prompts[..n], trace[..n]);
    }
  }

  /** The tags hold exactly the sections of the successful steps. */
  lemma {:induction false} TagsOfKeys(prompts: seq<PromptUnit>, trace: seq<StepOutcome>)
    requires |prompts| == |trace|
    ensures TagsOf(prompts, trace).Keys == StoredSections(prompts, trace)
    decreases |trace|
  {
    if trace != [] {
      var n := |trace| - 1;
      TagsOfKeys(prompts[..n], trace[..n]);
      var earlier := StoredSections(prompts[..n], trace[..n]);
      var all := StoredSections(prompts, trace);
      assert earlier <= all by {
        forall s | s in earlier ensures s in all {
          var i :| 0 <= i < n && trace[..n][i].Stored? && prompts[..n][i].section == s;
          assert trace[i].Stored? && prompts[i].section == s;
        }
      }
      assert all <= earlier + (if trace[n].Stored? then {prompts[n].section} else {}) by {
        forall s | s in all ensures s in earlier || (trace[n].Stored? && s == prompts[n].section) {
          var i :| 0 <= i < |trace| && trace[i].Stored? && prompts[i].section == s;
          if i < n {
            assert trace[..n][i].Stored? && prompts[..n][i].section == s;
          }
        }
      }
    }
  }

  /** Each section in the tags holds the answer of the last successful
      step of that section: a later step with the same section overwrites. */
  lemma {:induction false} TagsOfLastWriterWins(prompts: seq<PromptUnit>, trace: seq<StepOutcome>, i: int)
    requires |prompts| == |trace|
    requires LastStore(prompts, trace, i)
    ensures prompts[i].section in TagsOf(prompts, trace)
    ensures TagsOf(prompts, trace)[prompts[i].section] == trace[i].value
    decreases |trace|
  {
    var n := |trace| - 1;
    if i < n {
      assert !(trace[n].Stored? && prompts[n].section == prompts[i].section);
      assert LastStore(prompts[..n], trace[..n], i) by {
        forall j | i < j < n && trace[..n][j].Stored? ensures prompts[..n][j].section != prompts[..n][i].section {
          assert trace[j].Stored?;
        }
      }
      TagsOfLastWriterWins(prompts[..n], trace[..n], i);
    }
  }

  lemma StepKeepsAccounted(policy: RenderPolicy, done: seq<PromptUnit>, prompt: PromptUnit, provider: Adapter,
                           document: Document, st: DocState)
    requires Accounted(done, st)
    requires Step(policy, prompt, provider, document, st).Success?
    ensures Accounted(done + [prompt], Step(policy, prompt, provider, document, st).value)
  {
    var st' := Step(policy, prompt, provider, document, st).value;
    var all := done + [prompt];
    var n := |done|;
    assert all[..n] == done && st'.trace[..n] == st.trace && all[n] == prompt;
  }

  lemma {:induction false} ExecKeepsAccounted(policy: RenderPolicy, done: seq<PromptUnit>, rest: seq<PromptUnit>,
                                             provider: Adapter, document: Document, st: DocState)
    requires Accounted(done, st)
    requires Exec(policy, rest, provider, document, st).Success?
    ensures Accounted(done + rest, Exec(policy, rest, provider, document, st).value)
    decreases |rest|
  {
    if rest == [] {
      assert done + rest == done;
    } else {
      var next := Step(policy, rest[0], provider, document, st);
      StepKeepsAccounted(policy, done, rest[0], provider, document, st);
      ExecKeepsAccounted(policy, done + [rest[0]], rest[1..], provider, document, next.value);
      assert done + [rest[0]] + rest[1..] == done + rest;
    }
  }

  /** What an accounted state says, stated without the folds: the tags
      hold exactly the sections of the successful steps, each with the
      answer of the last of them, and errors plus successes is the number
      of steps. */
  lemma AccountedMeans(done: seq<PromptUnit>, st: DocState)
    requires Accounted(done, st)
    ensures st.tags.Keys == StoredSections(done, st.trace)
    ensures forall i :: LastStore(done, st.trace, i) ==> st.tags[done[i].section] == st.trace[i].value
    ensures |st.errors| + CountStored(st.trace) == |done|
  {
    TagsOfKeys(done, st.trace);
    forall i | LastStore(done, st.trace, i) ensures st.tags[done[i].section] == st.trace[i].value {
      TagsOfLastWriterWins(done, st.trace, i);
    }
    FailedPlusStored(done, st.trace);
  }

  /** Running a list of steps is running its two halves one after the other. */
  lemma {:induction false} ExecSplit(policy: RenderPolicy, a: seq<PromptUnit>, b: seq<PromptUnit>,
                                    provider: Adapter, document: Document, st: DocState)
    ensures Exec(policy, a + b, provider, document, st)
            == match Exec(policy, a, provider, document, st)
               case Failure(e) => Failure(e)
               case Success(mid) => Exec(policy, b, provider, document, mid)
    decreases |a|
  {
    if a == [] {
      assert a + b == b;
    } else {
      assert (a + b)[0] == a[0] && (a + b)[1..] == a[1..] + b;
      match Step(policy, a[0], provider, document, st)
      case Failure(_) =>
      case Success(next) => ExecSplit(policy, a[1..], b, provider, document, next);
    }
  }

  /** The state in which step `k` of a document's run starts. */
  function StateBefore(policy: RenderPolicy, prompts: seq<PromptUnit>, provider: Adapter, document: Document, k: nat)
    : Result<DocState, Error>
    requires k <= |prompts|
  {
    Exec(policy, prompts[..k], provider, document, Fresh)
  }

  /** Step `k` starts from a fresh state for the document plus the outcomes
      of steps `0..k-1` of that same document: the context it renders
      against holds exactly the sections of the earlier successful steps,
      each with the answer of the last of them; and the step itself renders
      against that context, invokes on the payload, and then either stores
      the answer under its section in tags and context alike, or records
      one error entry and changes nothing else, or (as written) ends the
      run with the rendering exception. */
  lemma StepAt(policy: RenderPolicy, prompts: seq<PromptUnit>, provider: Adapter, document: Document, k: nat)
    requires k < |prompts|
    requires StateBefore(policy, prompts, provider, document, k).Success?
    ensures var st := StateBefore(policy, prompts, provider, document, k).value;
      var prompt := prompts[k];
      var after := StateBefore(policy, prompts, provider, document, k + 1);
      && |st.trace| == k
      && st.errors == FailedEntries(prompts[..k], st.trace)
      && st.tags.Keys == StoredSections(prompts[..k], st.trace)
      && (forall i :: LastStore(prompts[..k], st.trace, i) ==> st.tags[prompts[i].section] == st.trace[i].value)
      && (match prompt.render(document, st.tags)
          case Failure(e) =>
            after == (if policy == Propagate then Failure(e) else Success(RecordFailure(st, prompt, e)))
          case Success(payload) =>
            match provider(prompt, document, payload)
            case Failure(e) =>
              after == Success(DocState(st.tags, st.errors + [ErrorEntry(prompt.name, e.message)], st.trace + [Failed(e.message)]))
            case Success(v) =>
              after == Success(DocState(st.tags[prompt.section := v], st.errors, st.trace + [Stored(v)])))
  {
    assert Accounted([], Fresh);
    ExecKeepsAccounted(policy, [], prompts[..k], provider, document, Fresh);
    assert [] + prompts[..k] == prompts[..k];
    AccountedMeans(prompts[..k], StateBefore(policy, prompts, provider, document, k).value);
    assert prompts[..k + 1] == prompts[..k] + [prompts[k]];
    ExecSplit(policy, prompts[..k], [prompts[k]], provider, document, Fresh);
  }

  /** A completed document's result: its tags are exactly the sections of
      its successful steps (each holding the last such answer), its errors
      are exactly its failed steps in order, and every prompt ran once:
      errors plus successes is the number of prompts. */
  lemma RunDocumentAccounts(policy: RenderPolicy, prompts: seq<PromptUnit>, provider: Adapter, document: Document)
    requires RunDocument(policy, prompts, provider, document).Success?
    ensures var r := RunDocument(policy, prompts, provider, document).value;
      var trace := Exec(policy, prompts, provider, document, Fresh).value.trace;
      && r.docId == document.docId && r.title == document.title
      && |trace| == |prompts|
      && r.errors == FailedEntries(prompts, trace)
      && r.structuredTags.Keys == StoredSections(prompts, trace)
      && (forall i :: LastStore(prompts, trace, i) ==> r.structuredTags[prompts[i].section] == trace[i].value)
      && |r.errors| + CountStored(trace) == |prompts|
  {
    assert Accounted([], Fresh);
    ExecKeepsAccounted(policy, [], prompts, provider, document, Fresh);
    assert [] + prompts == prompts;
    AccountedMeans(prompts, Exec(policy, prompts, provider, document, Fresh).value);
  }

  /** When rendering cannot fail, every document completes, whatever the
      provider does. */
  lemma {:induction false} TotalRenderingCompletes(policy: RenderPolicy, prompts: seq<PromptUnit>, provider: Adapter,
                                                  document: Document, st: DocState)
    requires forall i, c :: 0 <= i < |prompts| ==> prompts[i].render(document, c).Success?
    ensures Exec(policy, prompts, provider, document, st).Success?
    decreases |prompts|
  {
    if prompts != [] {
      assert prompts[0].render(document, st.tags).Success?;
      assert forall i :: 0 <= i < |prompts| - 1 ==> prompts[1..][i] == prompts[i + 1];
      TotalRenderingCompletes(policy, prompts[1..], provider, document,
                              Step(policy, prompts[0], provider, document, st).value);
    }
  }

  /** With rendering failures isolated, every step ends in the state: a
      run never stops early. */
  lemma {:induction false} IsolatedExecCompletes(prompts: seq<PromptUnit>, provider: Adapter, document: Document, st: DocState)
    ensures Exec(Isolate, prompts, provider, document, st).Success?
    decreases |prompts|
  {
    if prompts != [] {
      IsolatedExecCompletes(prompts[1..], provider, document, Step(Isolate, prompts[0], provider, document, st).value);
    }
  }

  /** The isolating engine: with rendering failures recorded as step
      failures, a run always completes with one result per document, and
      for each document errors plus successes is the number of prompts. */
  lemma IsolatedRunCompletes(prompts: seq<PromptUnit>, provider: Adapter, documents: seq<Document>)
    ensures var r := RunAll(Isolate, prompts, provider, documents);
      && r.Success? && |r.value| == |documents|
      && forall i :: 0 <= i < |documents| ==>
           r.value[i].docId == documents[i].docId
           && Exec(Isolate, prompts, provider, documents[i], Fresh).Success?
           && |r.value[i].errors| + CountStored(Exec(Isolate, prompts, provider, documents[i], Fresh).value.trace) == |prompts|
  {
    forall i | 0 <= i < |documents| ensures RunDocument(Isolate, prompts, provider, documents[i]).Success? {
      IsolatedExecCompletes(prompts, provider, documents[i], Fresh);
    }
    RunAllPerDocument(Isolate, prompts, provider, documents);
    forall i | 0 <= i < |documents|
      ensures |RunDocument(Isolate, prompts, provider, documents[i]).value.errors|
              + CountStored(Exec(Isolate, prompts, provider, documents[i], Fresh).value.trace) == |prompts|
    {
      RunDocumentAccounts(Isolate, prompts, provider, documents[i]);
    }
  }

  /** As written, one prompt whose template names a missing context entry
      is enough to lose the results of every document: `run` raises, where
      the isolating engine reports the failure in the document's errors. */
  lemma RenderFailureAbortsRun(document: Document, provider: Adapter)
    ensures var missing := Error(KeyError, "'summary'");
      var prompt := PromptUnit("tags", "tags", (d: Document, c: Context) => Failure(missing));
      && RunAll(Propagate, [prompt], provider, [document]) == Failure(missing)
      && RunAll(Isolate, [prompt], provider, [document])
         == Success([PipelineResult(document.docId, document.title, map[], [ErrorEntry("tags", "'summary'")])])
  {
    var missing := Error(KeyError, "'summary'");
    var prompt := PromptUnit("tags", "tags", (d: Document, c: Context) => Failure(missing));
    assert [document][1..] == [];
    assert [prompt][1..] == [];
    var failed := RecordFailure(Fresh, prompt, missing);
    assert failed == DocState(map[], [ErrorEntry("tags", "'summary'")], [Failed("'summary'")]);
    assert Step(Isolate, prompt, provider, document, Fresh) == Success(failed);
    assert Exec(Isolate, [prompt], provider, document, Fresh) == Success(failed);
    var result := PipelineResult(document.docId, document.title, map[], [ErrorEntry("tags", "'summary'")]);
    assert RunDocument(Isolate, [prompt], provider, document) == Success(result);
    assert [result] + [] == [result];
  }
}
