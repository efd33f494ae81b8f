/** Configuration logic of `openextract/config.py`: the deep merge of a
    pipeline configuration over global settings, the decision whether to
    merge at all, and the resolution of the provider credential.
    YAML parsing, `Path.exists` and file reads are inputs: a `Files` map
    from each existing path to the mapping its YAML document parses to. */
module Config {
  import opened Wrappers
  import opened Values

  // ---------------------------------------------------------------------
  // Deep merge
  // ---------------------------------------------------------------------

  /** True when both sides hold a dict under `key`: the case in which the
      merge recurses instead of letting the override value replace. */
  predicate BothDicts(base: Dict, override: Dict, key: string) {
    key in base && key in override && base[key].Obj? && override[key].Obj?
  }

  /** The deep merge of `override` over `base`, as a value: keys of either
      side, override winning, nested dicts merged recursively. */
  function Merge(base: Dict, override: Dict): (r: Dict)
    ensures r.Keys == base.Keys + override.Keys
    decreases Obj(override)
  {
    map key | key in base.Keys + override.Keys ::
      if BothDicts(base, override, key) then Obj(Merge(base[key].fields, override[key].fields))
      else if key in override then override[key]
      else base[key]
  }

  /** `_merge_configs`: copy `base`, then walk the override's entries,
      recursing where both sides hold a dict and assigning otherwise. */
  method MergeConfigs(base: Dict, override: Dict) returns (result: Dict)
    ensures result == Merge(base, override)
    decreases Obj(override)
  {
    result := base;
    var pending := override.Keys;
    while pending != {}
      invariant pending <= override.Keys
      invariant result.Keys == base.Keys + (override.Keys - pending)
      invariant forall key :: key in override.Keys - pending ==> result[key] == Merge(base, override)[key]
      invariant forall key :: key in base && key !in override.Keys - pending ==> result[key] == base[key]
      decreases pending
    {
      var key :| key in pending;
      var value := override[key];
      if key in result && result[key].Obj? && value.Obj? {
        var nested := MergeConfigs(result[key].fields, value.fields);
        result := result[key := Obj(nested)];
      } else {
        result := result[key := value];
      }
      pending := pending - {key};
    }
  }

  /** Every entry of `o` is present in `r` at every nesting level: a dict of
      `o` is a dict in `r` covering it, any other value is in `r` as is. */
  ghost predicate Covers(r: Dict, o: Dict)
    decreases Obj(o)
  {
    forall key :: key in o ==>
      key in r && (if o[key].Obj? then r[key].Obj? && Covers(r[key].fields, o[key].fields) else r[key] == o[key])
  }

  /** Every entry of `b` survives in `r` except where `o` replaces it: an
      entry `o` does not name is kept as is, and where both hold dicts the
      nested dicts are kept in the same sense. */
  ghost predicate Retains(r: Dict, b: Dict, o: Dict)
    decreases Obj(o)
  {
    forall key :: key in b ==>
      key in r
      && (key !in o ==> r[key] == b[key])
      && (BothDicts(b, o, key) ==> r[key].Obj? && Retains(r[key].fields, b[key].fields, o[key].fields))
  }

  lemma {:induction false} CoversReflexive(d: Dict)
    ensures Covers(d, d)
    decreases Obj(d)
  {
    forall key | key in d && d[key].Obj? {
      CoversReflexive(d[key].fields);
    }
  }

  /** The override wins at every nesting level. */
  lemma {:induction false} MergeCoversOverride(base: Dict, override: Dict)
    ensures Covers(Merge(base, override), override)
    decreases Obj(override)
  {
    var r := Merge(base, override);
    forall key | key in override && override[key].Obj?
      ensures r[key].Obj? && Covers(r[key].fields, override[key].fields)
    {
      if BothDicts(base, override, key) {
        MergeCoversOverride(base[key].fields, override[key].fields);
      } else {
        CoversReflexive(override[key].fields);
      }
    }
  }

  /** Base entries the override does not replace are kept, at every level. */
  lemma {:induction false} MergeRetainsBase(base: Dict, override: Dict)
    ensures Retains(Merge(base, override), base, override)
    decreases Obj(override)
  {
    var r := Merge(base, override);
    forall key | BothDicts(base, override, key)
      ensures r[key].Obj? && Retains(r[key].fields, base[key].fields, override[key].fields)
    {
      MergeRetainsBase(base[key].fields, override[key].fields);
    }
  }

  /** Merging with an empty override yields the base. */
  lemma MergeEmptyOverride(base: Dict)
    ensures Merge(base, map[]) == base
  {
  }

  /** Merging over an empty base yields the override. */
  lemma MergeEmptyBase(override: Dict)
    ensures Merge(map[], override) == override
  {
  }

  /** Merging a configuration with itself yields the same configuration. */
  lemma {:induction false} MergeSelf(d: Dict)
    ensures Merge(d, d) == d
    decreases Obj(d)
  {
    forall key | key in d && d[key].Obj?
      ensures Merge(d[key].fields, d[key].fields) == d[key].fields
    {
      MergeSelf(d[key].fields);
    }
  }

  /** Applying the same override a second time changes nothing. */
  lemma {:induction false} MergeOverrideIdempotent(base: Dict, override: Dict)
    ensures Merge(Merge(base, override), override) == Merge(base, override)
    decreases Obj(override)
  {
    var r := Merge(base, override);
    forall key | BothDicts(r, override, key)
      ensures Merge(r[key].fields, override[key].fields) == r[key].fields
    {
      if BothDicts(base, override, key) {
        MergeOverrideIdempotent(base[key].fields, override[key].fields);
      } else {
        MergeSelf(override[key].fields);
      }
    }
  }

  // ---------------------------------------------------------------------
  // Loading
  // ---------------------------------------------------------------------

  /** The YAML files that exist, each with the mapping its document parses
      to; `None` for a document that parses to nothing (an empty file). */
  type Files = map<string, Option<Dict>>

  /** `load_yaml`: open the file (which must exist) and take its parsed
      mapping, an empty document yielding `{}`. */
  function LoadYaml(files: Files, path: string): (r: Result<Dict, Error>)
    ensures r.Success? <==> path in files
    ensures path in files && files[path].None? ==> r == Success(map[])
  {
    if path in files then Success(files[path].GetOr(map[]))
    else Failure(Error(FileNotFoundError, "No such file or directory: " + path))
  }

  /** `load_config`: the pipeline configuration, merged over the global
      settings only when a non-empty settings path is given and exists. */
  function LoadConfig(files: Files, pipelinePath: string, settingsPath: Option<string>): (r: Result<Dict, Error>)
  {
    var pipeline :- LoadYaml(files, pipelinePath);
    if settingsPath.Some? && settingsPath.value != "" && settingsPath.value in files then
      var settings :- LoadYaml(files, settingsPath.value);
      Success(Merge(settings, pipeline))
    else
      Success(pipeline)
  }

  /** Whether `load_config` reads and merges the settings file. */
  predicate UsesSettings(files: Files, settingsPath: Option<string>) {
    settingsPath.Some? && settingsPath.value != "" && settingsPath.value in files
  }

  /** `load_config` fails exactly when the pipeline file is missing; the
      pipeline configuration wins at every level over the settings, the
      settings survive where the pipeline does not replace them, and
      without usable settings the pipeline configuration comes back as is. */
  lemma LoadConfigPrecedence(files: Files, pipelinePath: string, settingsPath: Option<string>)
    ensures LoadConfig(files, pipelinePath, settingsPath).Success? <==> pipelinePath in files
    ensures pipelinePath in files ==>
      var pipeline := files[pipelinePath].GetOr(map[]);
      var r := LoadConfig(files, pipelinePath, settingsPath).value;
      Covers(r, pipeline)
      && (UsesSettings(files, settingsPath) ==> Retains(r, files[settingsPath.value].GetOr(map[]), pipeline))
      && (!UsesSettings(files, settingsPath) ==> r == pipeline)
  {
    if pipelinePath in files {
      var pipeline := files[pipelinePath].GetOr(map[]);
      if UsesSettings(files, settingsPath) {
        var settings := files[settingsPath.value].GetOr(map[]);
        MergeCoversOverride(settings, pipeline);
        MergeRetainsBase(settings, pipeline);
      } else {
        CoversReflexive(pipeline);
      }
    }
  }

  // ---------------------------------------------------------------------
  // Credentials
  // ---------------------------------------------------------------------

  /** The process environment. */
  type Environment = map<string, string>

  /** `resolve_api_key`: the named environment variable when `api_key_env`
      is configured, else the literal `api_key`, else an error.
      `api_key_env` takes precedence over `api_key` whenever it is present;
      it succeeds only when it names a set, non-empty variable; and a
      configuration with neither key fails. */
  function ResolveApiKey(providerConfig: Dict, env: Environment): (r: Result<Value, Error>)
    ensures "api_key_env" in providerConfig ==>
      var name := providerConfig["api_key_env"];
      && (r.Success? <==> name.Str? && name.s in env && env[name.s] != "")
      && (r.Success? ==> r.value == Str(env[name.s]))
      && (name.Str? && r.Failure? ==> r.error.kind == ValueError)
    ensures "api_key_env" !in providerConfig && "api_key" in providerConfig ==> r == Success(providerConfig["api_key"])
    ensures "api_key_env" !in providerConfig && "api_key" !in providerConfig ==> r.Failure? && r.error.kind == ValueError
  {
    if "api_key_env" in providerConfig then
      var envVar := providerConfig["api_key_env"];
      if !envVar.Str? then
        // os.getenv of a non-string name fails inside the os module
        Failure(Error(TypeError, "str expected"))
      else if envVar.s !in env || env[envVar.s] == "" then
        Failure(Error(ValueError, "Environment variable " + envVar.s + " not found for API key"))
      else
        Success(Str(env[envVar.s]))
    else if "api_key" in providerConfig then
      Success(providerConfig["api_key"])
    else
      Failure(Error(ValueError, "No api_key or api_key_env specified in provider config"))
  }
}
