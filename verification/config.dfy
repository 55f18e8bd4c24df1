/**
 * Configuration: the recursive dictionary update behind `update_config`, the
 * order in which `_load_config` looks for a configuration file, and the LLM
 * section's defaults.  The file system and YAML loading are parameters.
 */
module Configuration {
  import opened Common

  // ------------------------------------------------------------ deep update

  /** The value `_deep_update` leaves under a key of the update. */
  function MergedAt(base: Dict, upd: Dict, k: string): Value
    requires k in upd
    decreases VDict(upd), 0
  {
    if k in base && base[k].VDict? && upd[k].VDict? then VDict(DeepMerged(base[k].entries, upd[k].entries))
    else upd[k]
  }

  /**
   * `base` after `_deep_update(base, upd)`: every key of the update is
   * present; where both sides hold a dict the two are merged recursively,
   * otherwise the update's value replaces the old one; keys only in `base`
   * are left alone.
   */
  function DeepMerged(base: Dict, upd: Dict): (r: Dict)
    ensures r.Keys == base.Keys + upd.Keys
    ensures forall k :: k in base && k !in upd ==> r[k] == base[k]
    ensures forall k :: k in upd && !(k in base && base[k].VDict? && upd[k].VDict?) ==> r[k] == upd[k]
    ensures forall k :: k in upd && k in base && base[k].VDict? && upd[k].VDict? ==>
      r[k] == VDict(DeepMerged(base[k].entries, upd[k].entries))
    decreases VDict(upd), 1
  {
    map k | k in base.Keys + upd.Keys :: if k in upd then MergedAt(base, upd, k) else base[k]
  }

  /** Merging a dictionary into itself changes nothing. */
  lemma {:induction false} MergeSelf(d: Dict)
    ensures DeepMerged(d, d) == d
    decreases VDict(d)
  {
    var r := DeepMerged(d, d);
    forall k | k in d
      ensures r[k] == d[k]
    {
      if d[k].VDict? {
        MergeSelf(d[k].entries);
      }
    }
  }

  /** Applying the same update twice gives what applying it once gives. */
  lemma {:induction false} DeepMergedIdempotent(base: Dict, upd: Dict)
    ensures DeepMerged(DeepMerged(base, upd), upd) == DeepMerged(base, upd)
    decreases VDict(upd)
  {
    var once := DeepMerged(base, upd);
    var twice := DeepMerged(once, upd);
    forall k | k in once
      ensures twice[k] == once[k]
    {
      if k in upd && upd[k].VDict? {
        if k in base && base[k].VDict? {
          DeepMergedIdempotent(base[k].entries, upd[k].entries);
        } else {
          MergeSelf(upd[k].entries);
        }
      }
    }
  }

  /** The update applied to the keys visited so far. */
  function Restricted(upd: Dict, keys: set<string>): (r: Dict)
    ensures r.Keys == upd.Keys * keys
  {
    map k | k in upd.Keys * keys :: upd[k]
  }

  /** Moving one key from the keys still to visit to the visited ones. */
  lemma RestrictedMore(upd: Dict, todo: set<string>, k: string)
    requires todo <= upd.Keys && k in todo
    ensures k !in Restricted(upd, upd.Keys - todo)
    ensures Restricted(upd, upd.Keys - (todo - {k})) == Restricted(upd, upd.Keys - todo)[k := upd[k]]
  {
  }

  /** Visiting one more key of the update changes the result at that key only. */
  lemma MergeOneMore(base: Dict, done: Dict, k: string, v: Value)
    requires k !in done
    ensures DeepMerged(base, done[k := v]) == DeepMerged(base, done)[k := MergedAt(base, done[k := v], k)]
  {
    var upd := done[k := v];
    var lhs := DeepMerged(base, upd);
    var rhs := DeepMerged(base, done)[k := MergedAt(base, upd, k)];
    assert lhs.Keys == rhs.Keys;
    forall j | j in lhs
      ensures lhs[j] == rhs[j]
    {
      if j != k && j in done {
        assert upd[j] == done[j];
        assert MergedAt(base, upd, j) == MergedAt(base, done, j);
      }
    }
    assert lhs == rhs;
  }

  /** `_deep_update`: the update's keys are visited one by one, recursing into nested dicts. */
  method DeepUpdate(base: Dict, upd: Dict) returns (r: Dict)
    ensures r == DeepMerged(base, upd)
    decreases VDict(upd)
  {
    r := base;
    var todo := upd.Keys;
    while todo != {}
      invariant todo <= upd.Keys
      invariant r == DeepMerged(base, Restricted(upd, upd.Keys - todo))
      decreases todo
    {
      var k :| k in todo;
      ghost var done := Restricted(upd, upd.Keys - todo);
      RestrictedMore(upd, todo, k);
      MergeOneMore(base, done, k, upd[k]);
      assert k in r <==> k in base;
      assert k in r ==> r[k] == base[k];
      if k in r && r[k].VDict? && upd[k].VDict? {
        var inner := DeepUpdate(r[k].entries, upd[k].entries);
        r := r[k := VDict(inner)];
      } else {
        r := r[k := upd[k]];
      }
      todo := todo - {k};
    }
    assert Restricted(upd, upd.Keys) == upd;
  }

  // ------------------------------------------------------------ loading

  /** What `_load_config` can see of the file system, and what `yaml.safe_load` gives for a file. */
  datatype ConfigFiles = ConfigFiles(
    found: string -> bool,
    load: string -> Value,
    expandUser: string -> string)

  /** The default locations, in the order they are tried. */
  const DefaultConfigPaths: seq<string> :=
    ["semgrepai.yml", "~/.config/semgrepai/config.yml", "/etc/semgrepai/config.yml"]

  /** The first default path that exists once `~` is expanded. */
  function FirstDefault(paths: seq<string>, files: ConfigFiles): (r: Option<string>)
    ensures r.None? <==> forall i :: 0 <= i < |paths| ==> !files.found(files.expandUser(paths[i]))
    ensures r.Some? ==> exists i :: (0 <= i < |paths| && r.value == files.expandUser(paths[i])
      && files.found(r.value) && forall j :: 0 <= j < i ==> !files.found(files.expandUser(paths[j])))
  {
    if paths == [] then None
    else if files.found(files.expandUser(paths[0])) then Some(files.expandUser(paths[0]))
    else
      var r := FirstDefault(paths[1..], files);
      assert forall i :: 1 <= i < |paths| ==> paths[i] == paths[1..][i - 1];
      r
  }

  /** The data an explicitly given path contributes: its contents if it exists, else `{}`. */
  function ExplicitData(configPath: Option<string>, files: ConfigFiles): Value {
    if configPath.Some? && configPath.value != "" && files.found(configPath.value)
    then files.load(configPath.value)
    else VDict(map[])
  }

  /** The data `_load_config` ends with, before it is turned into a `Config`. */
  function ConfigData(configPath: Option<string>, files: ConfigFiles): (r: Value)
    ensures Truthy(ExplicitData(configPath, files)) ==> r == ExplicitData(configPath, files)
    ensures !Truthy(ExplicitData(configPath, files)) && FirstDefault(DefaultConfigPaths, files).Some? ==>
      r == files.load(FirstDefault(DefaultConfigPaths, files).value)
    ensures !Truthy(ExplicitData(configPath, files)) && FirstDefault(DefaultConfigPaths, files).None? ==>
      !Truthy(r)
  {
    var explicit := ExplicitData(configPath, files);
    if Truthy(explicit) then explicit
    else
      match FirstDefault(DefaultConfigPaths, files)
      case Some(path) => files.load(path)
      case None => explicit
  }

  /** `Config(**config_data if config_data else {})`: empty data means all defaults; other data must be a mapping. */
  function LoadedConfig(configPath: Option<string>, files: ConfigFiles): (r: Result<Dict, string>)
    ensures r.Err? <==> Truthy(ConfigData(configPath, files)) && !ConfigData(configPath, files).VDict?
    ensures !Truthy(ConfigData(configPath, files)) ==> r == Ok(map[])
  {
    var data := ConfigData(configPath, files);
    if !Truthy(data) then Ok(map[])
    else if data.VDict? then Ok(data.entries)
    else Err("TypeError: argument after ** must be a mapping")
  }

  /** A default file that exists is taken even when it is empty: the search stops there. */
  lemma EmptyDefaultStopsSearch(configPath: Option<string>, files: ConfigFiles)
    requires !Truthy(ExplicitData(configPath, files))
    requires files.found(files.expandUser(DefaultConfigPaths[0]))
    requires !Truthy(files.load(files.expandUser(DefaultConfigPaths[0])))
    ensures LoadedConfig(configPath, files) == Ok(map[])
  {
  }

  /** `_load_config`: the explicit path first, then the defaults in order until one exists. */
  method LoadConfig(configPath: Option<string>, files: ConfigFiles) returns (r: Result<Dict, string>)
    ensures r == LoadedConfig(configPath, files)
  {
    var data := VDict(map[]);
    if configPath.Some? && configPath.value != "" {
      if files.found(configPath.value) {
        data := files.load(configPath.value);
      }
    }
    if !Truthy(data) {
      var i := 0;
      while i < |DefaultConfigPaths|
        invariant 0 <= i <= |DefaultConfigPaths|
        invariant data == ExplicitData(configPath, files)
        invariant forall j :: 0 <= j < i ==> !files.found(files.expandUser(DefaultConfigPaths[j]))
      {
        var path := files.expandUser(DefaultConfigPaths[i]);
        if files.found(path) {
          data := files.load(path);
          assert FirstDefault(DefaultConfigPaths, files) == Some(path) by {
            FirstDefaultAt(DefaultConfigPaths, files, i);
          }
          break;
        }
        i := i + 1;
      }
    }
    if !Truthy(data) {
      r := Ok(map[]);
    } else if data.VDict? {
      r := Ok(data.entries);
    } else {
      r := Err("TypeError: argument after ** must be a mapping");
    }
  }

  /** The first existing path is the one `FirstDefault` names. */
  lemma {:induction false} FirstDefaultAt(paths: seq<string>, files: ConfigFiles, i: nat)
    requires i < |paths| && files.found(files.expandUser(paths[i]))
    requires forall j :: 0 <= j < i ==> !files.found(files.expandUser(paths[j]))
    ensures FirstDefault(paths, files) == Some(files.expandUser(paths[i]))
  {
    if i > 0 {
      FirstDefaultAt(paths[1..], files, i - 1);
    }
  }

  // ------------------------------------------------------------ the manager

  /** Holds the configuration (in its dictionary form) and applies updates to it. */
  class ConfigManager {
    var config: Dict

    constructor (config: Dict)
      ensures this.config == config
    {
      this.config := config;
    }

    /** `update_config`: the updates are deep-merged into the current configuration. */
    method UpdateConfig(updates: Dict)
      modifies this
      ensures config == DeepMerged(old(config), updates)
      ensures forall k :: k in updates ==> k in config
    {
      config := DeepUpdate(config, updates);
    }
  }

  /** `ConfigManager(config_path)`: loading fails only when the data is not a mapping. */
  method NewConfigManager(configPath: Option<string>, files: ConfigFiles) returns (r: Option<ConfigManager>)
    ensures r.Some? <==> LoadedConfig(configPath, files).Ok?
    ensures r.Some? ==> fresh(r.value) && r.value.config == LoadedConfig(configPath, files).value
  {
    var loaded := LoadConfig(configPath, files);
    if loaded.Ok? {
      var m := new ConfigManager(loaded.value);
      r := Some(m);
    } else {
      r := None;
    }
  }

  // ------------------------------------------------------------ LLM section

  /** The providers `LLMProviderConfig.provider` accepts. */
  const Providers: set<string> := {"openai", "anthropic", "openrouter", "ollama"}

  /** `LLMProviderConfig`: the provider, its model and the call settings. */
  datatype ProviderConfig = ProviderConfig(
    provider: string,
    model: string,
    temperature: real,
    maxTokens: Option<int>,
    apiKey: Option<string>,
    apiBase: Option<string>,
    extraKwargs: Dict)

  /** The defaults of `LLMConfig`. */
  const DefaultProvider := ProviderConfig("openai", "gpt-4", 0.0, None, None, None, map[])
  const DefaultCacheDir := ".cache/llm"
  const DefaultMaxWorkers: Option<int> := Some(4)
  const DefaultBatchSize := 10

  /** The LLM section of the configuration. */
  datatype LLMConfig = LLMConfig(
    provider: ProviderConfig,
    cacheDir: string,
    maxWorkers: Option<int>,
    batchSize: int)

  /** An integer field: absent gives the default, anything but an integer is rejected. */
  function IntField(section: Dict, key: string, default: int): (r: Result<int, string>)
    ensures key !in section ==> r == Ok(default)
    ensures key in section ==> (r.Ok? <==> section[key].VInt?)
  {
    if key !in section then Ok(default)
    else if section[key].VInt? then Ok(section[key].i)
    else Err("validation error: " + key)
  }

  /** An optional integer field: `null` is allowed as well. */
  function OptionalIntField(section: Dict, key: string, default: Option<int>): (r: Result<Option<int>, string>)
    ensures key !in section ==> r == Ok(default)
    ensures key in section ==> (r.Ok? <==> section[key].VInt? || section[key].VNull?)
  {
    if key !in section then Ok(default)
    else if section[key].VNull? then Ok(None)
    else if section[key].VInt? then Ok(Some(section[key].i))
    else Err("validation error: " + key)
  }

  /** An optional text field: absent or `null` gives None. */
  function OptionalTextField(d: Dict, key: string): (r: Result<Option<string>, string>)
    ensures key !in d ==> r == Ok(None)
    ensures key in d ==> (r.Ok? <==> d[key].VStr? || d[key].VNull?)
    ensures key in d && d[key].VStr? ==> r == Ok(Some(d[key].s))
  {
    if key !in d || d[key].VNull? then Ok(None)
    else if d[key].VStr? then Ok(Some(d[key].s))
    else Err("validation error: " + key)
  }

  /** A float field: an integer is widened, anything but a number is rejected. */
  function FloatField(d: Dict, key: string, default: real): (r: Result<real, string>)
    ensures key !in d ==> r == Ok(default)
    ensures key in d ==> (r.Ok? <==> d[key].VInt? || d[key].VReal?)
    ensures key in d && d[key].VInt? ==> r == Ok(d[key].i as real)
  {
    if key !in d then Ok(default)
    else if d[key].VInt? then Ok(d[key].i as real)
    else if d[key].VReal? then Ok(d[key].r)
    else Err("validation error: " + key)
  }

  /**
   * `LLMProviderConfig(**entries)`: `model` is required, `provider` must be
   * one of the four known providers (openai when absent), and the other
   * fields are checked against their types.
   */
  function ProviderConfigOf(v: Value): (r: Result<ProviderConfig, string>)
    ensures r.Ok? ==> v.VDict? && "model" in v.entries && v.entries["model"] == VStr(r.value.model)
    ensures r.Ok? ==> r.value.provider in Providers
    ensures r.Ok? && "provider" in v.entries ==> v.entries["provider"] == VStr(r.value.provider)
    ensures r.Ok? && "provider" !in v.entries ==> r.value.provider == "openai"
    ensures v.VDict? && "provider" in v.entries && !(v.entries["provider"].VStr? && v.entries["provider"].s in Providers) ==> r.Err?
  {
    if !v.VDict? then Err("validation error: provider")
    else
      var d := v.entries;
      var name := if "provider" in d then d["provider"] else VStr("openai");
      if !(name.VStr? && name.s in Providers) then Err("validation error: provider.provider")
      else if "model" !in d || !d["model"].VStr? then Err("validation error: provider.model")
      else
        var temperature := FloatField(d, "temperature", 0.0);
        var maxTokens := OptionalIntField(d, "max_tokens", None);
        var apiKey := OptionalTextField(d, "api_key");
        var apiBase := OptionalTextField(d, "api_base");
        if temperature.Err? then Err(temperature.error)
        else if maxTokens.Err? then Err(maxTokens.error)
        else if apiKey.Err? then Err(apiKey.error)
        else if apiBase.Err? then Err(apiBase.error)
        else if "extra_kwargs" in d && !d["extra_kwargs"].VDict? then Err("validation error: provider.extra_kwargs")
        else
          var extra := if "extra_kwargs" in d then d["extra_kwargs"].entries else map[];
          Ok(ProviderConfig(name.s, d["model"].s, temperature.value, maxTokens.value, apiKey.value, apiBase.value, extra))
  }

  /** `model_dump()` of a provider configuration, as the dictionary it would be loaded from. */
  function ProviderEntries(c: ProviderConfig): (d: Dict)
    ensures d.Keys == {"provider", "model", "temperature", "max_tokens", "api_key", "api_base", "extra_kwargs"}
  {
    map["provider" := VStr(c.provider), "model" := VStr(c.model), "temperature" := VReal(c.temperature),
        "max_tokens" := (if c.maxTokens.Some? then VInt(c.maxTokens.value) else VNull),
        "api_key" := (if c.apiKey.Some? then VStr(c.apiKey.value) else VNull),
        "api_base" := (if c.apiBase.Some? then VStr(c.apiBase.value) else VNull),
        "extra_kwargs" := VDict(c.extraKwargs)]
  }

  /** A dumped provider configuration with a known provider loads back as itself. */
  lemma ProviderDumpLoads(c: ProviderConfig)
    requires c.provider in Providers
    ensures ProviderConfigOf(VDict(ProviderEntries(c))) == Ok(c)
  {
    var d := ProviderEntries(c);
    assert d["provider"] == VStr(c.provider) && d["model"] == VStr(c.model);
    assert d["temperature"] == VReal(c.temperature);
    assert d["extra_kwargs"] == VDict(c.extraKwargs);
  }

  /**
   * `LLMConfig(**section)`: the provider sub-section (the default provider
   * when absent), the worker and batch settings and the cache directory.
   */
  function LLMConfigOf(section: Dict): (r: Result<LLMConfig, string>)
    ensures "provider" !in section && "max_workers" !in section && "batch_size" !in section && "cache_dir" !in section ==>
      r == Ok(LLMConfig(DefaultProvider, DefaultCacheDir, Some(4), 10))
    ensures r.Ok? && "provider" !in section ==> r.value.provider == DefaultProvider
    ensures "provider" in section ==> (ProviderConfigOf(section["provider"]).Err? ==> r.Err?) &&
                                      (r.Ok? ==> ProviderConfigOf(section["provider"]) == Ok(r.value.provider))
  {
    var provider := if "provider" in section then ProviderConfigOf(section["provider"]) else Ok(DefaultProvider);
    var workers := OptionalIntField(section, "max_workers", DefaultMaxWorkers);
    var batch := IntField(section, "batch_size", DefaultBatchSize);
    if provider.Err? then Err(provider.error)
    else if workers.Err? then Err(workers.error)
    else if batch.Err? then Err(batch.error)
    else if "cache_dir" in section && !section["cache_dir"].VStr? then Err("validation error: cache_dir")
    else
      var dir := if "cache_dir" in section then section["cache_dir"].s else DefaultCacheDir;
      Ok(LLMConfig(provider.value, dir, workers.value, batch.value))
  }

  /** An update of the batch size keeps the configured worker count. */
  lemma BatchUpdateKeepsWorkers(section: Dict, n: int)
    requires LLMConfigOf(section).Ok?
    ensures var updated := DeepMerged(section, map["batch_size" := VInt(n)]);
      && LLMConfigOf(updated).Ok?
      && LLMConfigOf(updated).value.batchSize == n
      && LLMConfigOf(updated).value.maxWorkers == LLMConfigOf(section).value.maxWorkers
  {
    var updated := DeepMerged(section, map["batch_size" := VInt(n)]);
    assert updated["batch_size"] == VInt(n);
    assert "max_workers" in section ==> updated["max_workers"] == section["max_workers"];
    assert "cache_dir" in section ==> updated["cache_dir"] == section["cache_dir"];
    assert "provider" in section ==> updated["provider"] == section["provider"];
  }
}
