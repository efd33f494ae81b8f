/** The provider-adapter contract of `openextract/providers/base.py`: the
    runtime configuration record with its defaults, and `invoke` as the
    composition prepare, then dispatch, then parse. */
module ProviderBase {
  import opened Wrappers
  import opened Values

  /** `ProviderConfig`. `think_mode` is `bool | None`. */
  datatype ProviderConfig = ProviderConfig(
    name: string,
    apiBase: string,
    model: string,
    apiKey: string,
    concurrency: int,
    sleepSeconds: real,
    timeout: real,
    thinkMode: Option<bool>)

  /** The dataclass constructor with only the four required fields given. */
  function NewProviderConfig(name: string, apiBase: string, model: string, apiKey: string): (c: ProviderConfig)
    ensures c.name == name && c.apiBase == apiBase && c.model == model && c.apiKey == apiKey
    ensures c.concurrency == 1 && c.sleepSeconds == 0.0 && c.timeout == 120.0 && c.thinkMode == None
  {
    ProviderConfig(name, apiBase, model, apiKey, 1, 0.0, 120.0, None)
  }

  /** The three stages of an adapter; each may raise. `dispatch` answers
      with the raw JSON of the provider, `parse` with the structured result. */
  datatype Stages = Stages(
    prepare: Dict -> Result<Dict, Error>,
    dispatch: Dict -> Result<Value, Error>,
    parse: Value -> Result<Value, Error>)

  /** `Provider.invoke`: prepare, dispatch, parse, each exception passing
      through unchanged. `prompt` and `document` are accepted and unused. */
  function Invoke<P, D>(stages: Stages, prompt: P, document: D, payload: Dict): Result<Value, Error>
  {
    var prepared :- stages.prepare(payload);
    var response :- stages.dispatch(prepared);
    stages.parse(response)
  }

  /** `invoke` threads each stage's output into the next and returns the
      parse result; otherwise it returns the first failure unchanged, so a
      stage after the failing one has no effect on the result. */
  lemma InvokeComposition<P, D>(stages: Stages, prompt: P, document: D, payload: Dict)
    ensures var r := Invoke(stages, prompt, document, payload);
      match stages.prepare(payload)
      case Failure(e) => r == Failure(e)
      case Success(prepared) =>
        match stages.dispatch(prepared)
        case Failure(e) => r == Failure(e)
        case Success(response) => r == stages.parse(response)
  {
  }

  /** A stage after a failing one cannot influence the result: replacing
      the later stages by any others gives the same exception. */
  lemma FailureSkipsLaterStages<P, D>(stages: Stages, other: Stages, prompt: P, document: D, payload: Dict)
    requires other.prepare == stages.prepare
    ensures stages.prepare(payload).Failure? ==>
      Invoke(other, prompt, document, payload) == Invoke(stages, prompt, document, payload)
    ensures stages.prepare(payload).Success? && other.dispatch == stages.dispatch
            && stages.dispatch(stages.prepare(payload).value).Failure? ==>
      Invoke(other, prompt, document, payload) == Invoke(stages, prompt, document, payload)
  {
  }

  /** The result of `invoke` depends only on the payload. */
  lemma InvokeIgnoresPromptAndDocument<P, D>(stages: Stages, p1: P, d1: D, p2: P, d2: D, payload: Dict)
    ensures Invoke(stages, p1, d1, payload) == Invoke(stages, p2, d2, payload)
  {
  }
}
