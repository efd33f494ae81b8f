# OpenExtract core in Dafny

This project models the core of OpenExtract, a pipeline that runs each
document (an article or a spreadsheet row) through an ordered list of
prompt units and collects what a language-model provider answers. It covers:

- **The pipeline engine** (`openextract/pipelines/base.py`):
  - the `BasePipeline` object and its `run` loop over documents and prompts;
  - the running context that feeds earlier answers into later prompts;
  - the per-document error list;
  - the `Document` and `PipelineResult` records.
- **The provider contract** (`openextract/providers/base.py`):
  - `ProviderConfig` and its defaults;
  - `invoke` as prepare, then dispatch, then parse.
- **The SiliconFlow adapter** (`openextract/providers/siliconflow.py`):
  - request construction;
  - the rate limit and the time of the last request, as object state;
  - how HTTP outcomes become errors;
  - response parsing, with and without think mode.
- **Prompts** (`openextract/prompts/loader.py`):
  - `TemplatePrompt.render_input` over a model of `str.format` with named fields;
  - the `PromptLoader` rules: which files are read, in which order, and how each is named and given a temperature.
- **Configuration** (`openextract/config.py`):
  - the deep merge of pipeline over global settings;
  - when that merge happens;
  - how the API key is resolved.

Modules, one per file:

- `Wrappers`: `Option` and `Result`.
- `Values`: JSON-like values and Python exception kinds.
- `Config`, `ProviderBase`, `SiliconFlow`, `Pipeline` and `Prompts`.

`run`, `_merge_configs` and `load_prompts` work by updating local state in loops. Each of them is an imperative method with its loop, proved equal to a specification function. `SiliconFlowProvider` is a class: `dispatch` has no loop, but it updates the object's `_last_request_time` field, and its contract states the new value of that field. The properties are proved as lemmas about the specification functions.

Conventions:

- An exception is an `Error(kind, message)` carried in a `Result`.
- A Python `dict` is a `map<string, Value>`.
- A number, int or float, is a `real`.
- The parts the model does not contain are parameters:
  - the HTTP endpoint is a function from the request to the reply;
  - `json.loads` is a function from text to an optional value;
  - `str()` of a context value is a function `toStr`;
  - the clock is two readings per call;
  - the environment, the YAML files and the prompt directory are given as values.

The model follows what the code does:

- A rendering exception is raised outside the step's `try`, so it ends the whole run. Each step is wrapped in a `try` that records a provider failure in the document's errors and moves on, under the comment `# placeholder error handling` (`pipelines/base.py:76-80`). That reads as an intent to treat every step failure alike. See Findings.
- A missing placeholder raises Python's `KeyError`, and the model keeps the `KeyError`.

## Model

| member | source | states |
|---|---|---|
| Pipeline.BasePipeline.constructor | openextract/pipelines/base.py:58-64 | the engine keeps the given prompt list and provider |
| Pipeline.BasePipeline.Run | openextract/pipelines/base.py:66-91 | the nested loop returns exactly `RunAll` with errors propagating as written: a render exception aborts the run, a provider exception becomes an error entry and the loop continues, a success stores the answer in tags and context |
| Pipeline.RunAllPerDocument | openextract/pipelines/base.py:69-91 | one result per document in input order, each equal to that document run alone and carrying its id and title; the run fails iff some document fails, with the first failing document's exception |
| Pipeline.RunAllConcat | openextract/pipelines/base.py:70-73 | no state leaks between documents: running two batches together is running them one after the other |
| Pipeline.StepAt | openextract/pipelines/base.py:71-82 | prompt k renders against a context holding exactly the sections of the earlier successful prompts of the same document, each with the last such answer; the step then raises, records the provider's error, or stores the answer under its section |
| Pipeline.RunDocumentAccounts | openextract/pipelines/base.py:71-90 | a completed document's tags are exactly the stored sections (last writer wins), its errors are exactly the failed steps in order, and errors plus successes equals the number of prompts |
| Pipeline.TagsOfLastWriterWins | openextract/pipelines/base.py:81-82 | under a section shared by several prompts, the tags hold the answer of the last successful one |
| Pipeline.FailedPlusStored | openextract/pipelines/base.py:77-82 | every step either fails with an error entry or stores an answer |
| Pipeline.TotalRenderingCompletes | openextract/pipelines/base.py:74-82 | when no prompt's rendering fails, a document always completes whatever the provider does |
| Pipeline.RenderFailureAbortsRun | openextract/pipelines/base.py:75-80 | a prompt whose rendering raises `KeyError('summary')` makes the run raise it as written, while isolating it yields the document with one error entry |
| Pipeline.IsolatedRunCompletes | openextract/pipelines/base.py:75-80 | with render failures recorded as step failures, every run completes with one result per document and errors plus successes equal to the number of prompts |
| ProviderBase.NewProviderConfig | openextract/providers/base.py:12-23 | the defaults: concurrency 1, sleep 0.0 s, timeout 120.0 s, think mode None |
| ProviderBase.InvokeComposition | openextract/providers/base.py:40-44 | `invoke` feeds each stage's output into the next and returns the parse result; the first failing stage's exception passes through unchanged |
| ProviderBase.FailureSkipsLaterStages | openextract/providers/base.py:40-44 | after a failing prepare (or a failing dispatch), replacing the later stages by any others leaves the result unchanged: they do not take part |
| ProviderBase.InvokeIgnoresPromptAndDocument | openextract/providers/base.py:40-44 | the result depends on the payload only |
| SiliconFlow.SiliconFlowProvider.constructor | openextract/providers/siliconflow.py:15-18 | the provider keeps its configuration and starts with last request time 0.0 |
| SiliconFlow.PreparePayloadShape | openextract/providers/siliconflow.py:20-36 | the request has model, messages, temperature and max_tokens; stream=false and a json_object response format are added exactly when think mode is not None; each prompt value passes through or defaults to `[]`, 0.2 and 1500 |
| SiliconFlow.PreparePayloadReadsOnlyRequestKeys | openextract/providers/siliconflow.py:22-28 | keys of the prompt payload other than messages, temperature and max_tokens do not affect the request |
| SiliconFlow.RateLimitWait | openextract/providers/siliconflow.py:40-44 | the wait is never negative; it is positive exactly when a sleep interval is set and less than it has elapsed; the call then starts exactly one interval after the last request |
| SiliconFlow.DispatchResult | openextract/providers/siliconflow.py:53-64 | dispatch returns the JSON body iff the status is not 4xx/5xx and the body is JSON; every transport, status or decoding failure is a RuntimeError |
| SiliconFlow.SiliconFlowProvider.Dispatch | openextract/providers/siliconflow.py:38-64 | the provider waits as `RateLimitWait` says and answers `DispatchResult` of the reply; the last request time moves to the reply's clock reading only when the status passed |
| SiliconFlow.Subscript | openextract/providers/siliconflow.py:69 | a string subscript succeeds exactly on an object having that key and yields its value |
| SiliconFlow.SubscriptFirst | openextract/providers/siliconflow.py:69 | `[0]` yields the first element of a non-empty list or the first character of a non-empty string, and fails otherwise |
| SiliconFlow.ExtractContentFindsContentAt | openextract/providers/siliconflow.py:69 | the subscript chain succeeds exactly when `choices` is a non-empty list whose first element holds a `message` object with `content`, and yields that content |
| SiliconFlow.ParseResponseContract | openextract/providers/siliconflow.py:66-79 | parsing succeeds iff the content is in place (and is JSON text when think mode is truthy); it yields `{"content": content}` or the parsed JSON; every failure is a ValueError carrying the prefix "Failed to parse SiliconFlow response: " or a TypeError |
| SiliconFlow.ExtractFailureOnWellTypedPath | openextract/providers/siliconflow.py:69 | when every container on the `choices[0].message.content` path has the right type, the subscript chain fails only with a KeyError or an IndexError |
| SiliconFlow.ParseResponseFailures | openextract/providers/siliconflow.py:66-79 | on a well-typed path every failure is the ValueError "Failed to parse SiliconFlow response: ..."; a TypeError implies some container on the path has the wrong type; a response without `choices`, and non-JSON content when think mode is truthy, are such ValueErrors |
| SiliconFlow.EmptyChoicesIsParseError | openextract/providers/siliconflow.py:69-79 | any response whose `choices` is an empty list, whatever else it holds, fails with the ValueError "Failed to parse SiliconFlow response: ..." |
| SiliconFlow.ThinkModeFalseIsMixed | openextract/providers/siliconflow.py:32-77 | with `think_mode=False` the request asks for a JSON object, yet the reply is still wrapped as text |
| SiliconFlow.AdapterIsComposition | openextract/providers/siliconflow.py:81-85 | through the engine a call is parse of dispatch of prepare; a failed request is returned without parsing |
| SiliconFlow.SiliconFlowProvider.Invoke | openextract/providers/siliconflow.py:81-85 | the object's `invoke` returns the provider-contract composition over the SiliconFlow stages and updates the last request time as dispatch does |
| Prompts.FormatArgs | openextract/prompts/loader.py:23-27 | the format arguments are `title` = document title, `content` = document payload, and every context key mapped to its value's text |
| Prompts.FormatIsParseThenFill | openextract/prompts/loader.py:23-27 | formatting succeeds iff the template is well formed and names only available arguments; it then yields the template with each field replaced by its argument and each `{{`/`}}` by one brace |
| Prompts.FormatUnknownField | openextract/prompts/loader.py:23-27 | on a well-formed template, formatting can only fail on a field that is not an argument, and names that field |
| Prompts.ParseUnparse | openextract/prompts/loader.py:23-27 | the template text written for literal characters and plain named fields reads back as the same pieces |
| Prompts.SingleFieldTemplate | openextract/prompts/loader.py:23-27 | a template `{name}` renders the argument `name`, or raises KeyError for it |
| Prompts.RenderInputContract | openextract/prompts/loader.py:20-36 | rendering succeeds iff no context key is `title` or `content` and every field is `title`, `content` or a context key; the payload is exactly one user message with the rendered text plus the prompt's temperature; a clash is a duplicate keyword, and otherwise a failure on a well-formed template names a missing context key |
| Prompts.TemplateStepSeesEarlierSuccesses | openextract/prompts/loader.py:20-27 | in a run, a template prompt renders iff each field it names is `title`, `content` or the section of an earlier successful step of the same document; when the template is well formed and no earlier section is `title` or `content`, a failure is a KeyError |
| Prompts.FailedSectionAbortsRun | openextract/prompts/loader.py:23-27 | when a `summary` step's provider call fails, a `tags` template reading `{summary}` raises `KeyError('summary')`, which ends the run as written; isolated, the document keeps both failures in its errors |
| Prompts.NewPromptLoader | openextract/prompts/loader.py:42-54 | the loader fails with FileNotFoundError iff the directory does not exist; absent overrides mean none |
| Prompts.Insert | openextract/prompts/loader.py:66 | inserting adds exactly the one file to the sorted list |
| Prompts.InsertSorted | openextract/prompts/loader.py:66 | insertion keeps the list in name order |
| Prompts.SortByName | openextract/prompts/loader.py:66 | `sorted` is a permutation of the files it sorts |
| Prompts.SortByNameSorted | openextract/prompts/loader.py:66 | `sorted` yields the files in code-point order of their names |
| Prompts.SortedByNameUnique | openextract/prompts/loader.py:66 | a name-sorted list of the files of one directory is determined by which files there are |
| Prompts.Glob | openextract/prompts/loader.py:66 | the glob yields exactly the files whose names end with the suffix |
| Prompts.GlobCount | openextract/prompts/loader.py:66 | the glob lists a matching file as often as the directory does, and a non-matching one never |
| Prompts.LastDot | openextract/prompts/loader.py:80 | the position found holds the last '.' of the name |
| Prompts.StemOfPromptFile | openextract/prompts/loader.py:66-80 | the stem `_load_prompt_file` uses as name and section is, for every `.txt` or `.md` file name longer than its extension, the name without that extension |
| Prompts.StemDropsSuffix | openextract/prompts/loader.py:80 | a name ending in a dot-led, dot-free suffix, and longer than it, has as stem the name without the suffix |
| Prompts.StemExamples | openextract/prompts/loader.py:80 | the stem of `summary.txt` is `summary`, of `a.b.md` is `a.b`, of `.txt` is `.txt`, of `tags` is `tags` |
| Prompts.LoadPromptFile | openextract/prompts/loader.py:78-93 | a file becomes the prompt named after its stem, with that stem as section, the file's text as template, and the override temperature for the name or else 0.2 |
| Prompts.LoadAll | openextract/prompts/loader.py:66-74 | one prompt per file, in the files' order |
| Prompts.LoadEach | openextract/prompts/loader.py:66-68 | one loop of `load_prompts`: it appends the prompt of each file in the listing, in listing order |
| Prompts.LoadPrompts | openextract/prompts/loader.py:56-76 | the two loops append exactly the prompts of the selected files, in order |
| Prompts.SelectedFilesContract | openextract/prompts/loader.py:63-76 | the files read are in name order, and are exactly the `.txt` files when there is one, else exactly the `.md` files |
| Prompts.LoadPromptsContract | openextract/prompts/loader.py:56-93 | one prompt per selected file in name order, each named by its stem with section and temperature as configured |
| Prompts.SelectionIgnoresListingOrder | openextract/prompts/loader.py:63-76 | the prompts and their order do not depend on the order in which the directory lists its files |
| Config.Merge | openextract/config.py:38-46 | the merged keys are the keys of either side |
| Config.MergeConfigs | openextract/config.py:38-46 | the copy-then-walk loop with its recursion computes `Merge` |
| Config.MergeCoversOverride | openextract/config.py:38-46 | every override entry is in the result at every nesting level: override dicts as covered dicts, other values as is |
| Config.MergeRetainsBase | openextract/config.py:38-46 | base entries not replaced by the override survive, at every nesting level |
| Config.MergeEmptyOverride | openextract/config.py:38-46 | merging an empty override gives the base |
| Config.MergeEmptyBase | openextract/config.py:38-46 | merging over an empty base gives the override |
| Config.MergeSelf | openextract/config.py:38-46 | merging a configuration with itself gives it back |
| Config.MergeOverrideIdempotent | openextract/config.py:38-46 | applying the same override twice equals applying it once |
| Config.LoadYaml | openextract/config.py:11-14 | loading fails iff the file does not exist; an empty document yields `{}` |
| Config.LoadConfigPrecedence | openextract/config.py:17-35 | `load_config` fails iff the pipeline file is missing; with an existing non-empty settings path the pipeline configuration overrides the settings at every level and the rest of the settings survive; otherwise the pipeline configuration comes back unchanged |
| Config.ResolveApiKey | openextract/config.py:49-71 | `api_key_env`, when present, takes precedence and succeeds exactly with a set, non-empty variable's value; otherwise `api_key` is returned as is; with neither the result is a ValueError |

## Left out

- HTTP itself is not modelled: the URL, the headers with the bearer token, the `timeout` argument and the request encoding (`openextract/providers/siliconflow.py:46-59`). The endpoint is a function from the request JSON to a reply, meaning a status plus a body or a transport failure.
- The clock and `time.sleep` are not modelled: the clock readings are parameters, and `Dispatch` returns how long it would sleep.
- Exception messages produced by library code are approximations (`str.format`, `os.getenv`, `requests`, `json`). The model fixes the exception kind and the messages the repository writes itself.
- Floating point is modelled as exact `real` numbers: no rounding, no float formatting.
- Python ints are `real` numbers too, so int and float are not told apart: the default `max_tokens` 1500 is `Num(1500.0)`, and so are JSON and YAML integers. Where the distinction shows (`str(3)` is `3`, `str(3.0)` is `3.0`, in `toStr` or a request body) the model does not capture it.
- `str.format` is modelled only for plain named fields and the `{{`/`}}` escapes. A field with a format specification, a conversion, an attribute or an index is reported as an unmodelled error, where Python could succeed.
- `str()` of a context value is the parameter `toStr`, and `json.loads` is the parameter `parseJson`. Their internals are not modelled.
- YAML parsing is not modelled: each existing file is given with the mapping its document parses to, or none for an empty file. Documents that are scalars or lists, and open errors other than a missing file, are not modelled.
- Dicts are unordered maps, so insertion order is not modelled. When a context holds both `title` and `content`, the model reports the `title` clash; Python would report whichever comes first in the context.
- `_merge_configs` copies only the top level, so nested dicts that the override does not touch stay shared with `base`. The model works on values, so this aliasing is not represented.
- Path handling is simplified. Reading a prompt file (its encoding and I/O errors) is not modelled: files are given with their text. The glob is modelled as a case-sensitive suffix match on the names of the files in the directory. A subdirectory named `*.txt` is not distinguished from a file.
- The engine's provider is a pure function. The rate-limit state of a real provider persisting across the steps of `run` is modelled only within `SiliconFlowProvider`'s own methods.
- `ProviderConfig.concurrency` is carried but unused, as in the source. `Document.meta` is carried but unused.
- Dispatch assumes `requests` 2.27 or later, where a JSON decoding error of the body is a `RequestException`. It therefore becomes a RuntimeError, raised after the last request time was already updated.
- The Excel source, the scripts under `scripts/`, and the construction of prompts and providers from configuration are not part of this model.
- SiliconFlow.EmptyChoicesIsParseError: states the kind and the prefix of the message, not the text `str()` of the IndexError adds after it.

## Findings

| source | as written | input that shows it | evidently intended | confidence | as-written member | corrected member |
|---|---|---|---|---|---|---|
| openextract/pipelines/base.py:75-80 | `render_input` is called before the `try`. A rendering exception therefore escapes `run`, and the results of every document are lost. | A `tags` prompt with template `{summary}` running after a `summary` prompt whose provider call failed. Rendering raises `KeyError('summary')`. | A rendering failure is recorded in the document's errors like a provider failure, and the loop continues with the next prompt. | medium, not executed | Prompts.FailedSectionAbortsRun | Pipeline.IsolatedRunCompletes |

The two engines in this table are the `Propagate` and `Isolate` policies of the same specification functions:

- `Propagate` is the code as written. `BasePipeline.Run` is proved equal to it.
- `Isolate` is the corrected engine, recording a rendering failure as the `try` records a provider failure. `IsolatedRunCompletes` proves it always completes, with errors plus successes equal to the number of prompts.

The accounting lemmas (`StepAt`, `RunDocumentAccounts`) hold under both policies.
