/** `ConfigService` of `services/config_service.py`: a two-level
    configuration (section, then key) built from defaults, overridden by
    eighteen environment variables with per-key type conversion, and read
    and written through `get`, `set` and `update_section`. */
module Config {
  import opened Wrappers
  import opened Text

  /** A configuration value: the types the defaults and the conversions
      produce. */
  datatype Value = Str(s: string) | Int(i: int) | Real(r: real) | Bool(b: bool)

  type Section = map<string, Value>
  type Settings = map<string, Section>

  /** `_load_default_config`. */
  function DefaultConfig(): (cfg: Settings)
    ensures cfg.Keys == {"download", "transcription", "analysis", "minio", "logging"}
    ensures "download" in cfg && "default_output_path" in cfg["download"]
            && cfg["download"]["default_output_path"] == Str("source-files")
    ensures "transcription" in cfg && "default_model_size" in cfg["transcription"]
            && cfg["transcription"]["default_model_size"] == Str("medium")
  {
    map[
      "download" := DownloadDefaults(),
      "transcription" := TranscriptionDefaults(),
      "analysis" := AnalysisDefaults(),
      "minio" := MinioDefaults(),
      "logging" := LoggingDefaults()
    ]
  }

  function DownloadDefaults(): Section
  {
    map[
      "default_output_path" := Str("source-files"),
      "default_resolution" := Str("best"),
      "merge_output_format" := Str("mp4")]
  }

  function TranscriptionDefaults(): Section
  {
    map[
      "default_model_size" := Str("medium"),
      "device" := Str("cuda"),
      "compute_type" := Str("float16"),
      "beam_size" := Int(5)]
  }

  function AnalysisDefaults(): Section
  {
    map[
      "ollama_url" := Str("http://nvda:30434"),
      "model_name" := Str("gpt-oss:20b"),
      "temperature" := Real(0.7),
      "max_tokens" := Int(2048),
      "enable_analysis" := Bool(true)]
  }

  function MinioDefaults(): Section
  {
    map[
      "endpoint" := Str("localhost:9000"),
      "access_key" := Str("minioadmin"),
      "secret_key" := Str("minioadmin"),
      "bucket_name" := Str("videos"),
      "secure" := Bool(false),
      "enabled" := Bool(false)]
  }

  function LoggingDefaults(): Section
  {
    map[
      "level" := Str("INFO"),
      "format" := Str("{time:YYYY-MM-DD HH:mm:ss} | {level} | {message}")]
  }

  /** One entry of `env_mappings`: an environment variable and the setting it overrides. */
  datatype Mapping = Mapping(envVar: string, section: string, key: string)

  /** `env_mappings`, in the order the loop visits it. */
  const EnvMappings: seq<Mapping> := [
    Mapping("YT_OUTPUT_PATH", "download", "default_output_path"),
    Mapping("YT_RESOLUTION", "download", "default_resolution"),
    Mapping("WHISPER_MODEL_SIZE", "transcription", "default_model_size"),
    Mapping("WHISPER_DEVICE", "transcription", "device"),
    Mapping("WHISPER_COMPUTE_TYPE", "transcription", "compute_type"),
    Mapping("WHISPER_BEAM_SIZE", "transcription", "beam_size"),
    Mapping("OLLAMA_URL", "analysis", "ollama_url"),
    Mapping("OLLAMA_MODEL", "analysis", "model_name"),
    Mapping("OLLAMA_TEMPERATURE", "analysis", "temperature"),
    Mapping("OLLAMA_MAX_TOKENS", "analysis", "max_tokens"),
    Mapping("ENABLE_ANALYSIS", "analysis", "enable_analysis"),
    Mapping("MINIO_ENDPOINT", "minio", "endpoint"),
    Mapping("MINIO_ACCESS_KEY", "minio", "access_key"),
    Mapping("MINIO_SECRET_KEY", "minio", "secret_key"),
    Mapping("MINIO_BUCKET", "minio", "bucket_name"),
    Mapping("MINIO_SECURE", "minio", "secure"),
    Mapping("MINIO_ENABLED", "minio", "enabled"),
    Mapping("LOG_LEVEL", "logging", "level")
  ]

  /** No two entries override the same setting. */
  predicate DistinctTargets(ms: seq<Mapping>)
  {
    forall i, j :: 0 <= i < j < |ms| ==> (ms[i].section, ms[i].key) != (ms[j].section, ms[j].key)
  }

  /** Every overridden setting exists in `cfg`. */
  predicate TargetsPresent(ms: seq<Mapping>, cfg: Settings)
  {
    forall i :: 0 <= i < |ms| ==> ms[i].section in cfg && ms[i].key in cfg[ms[i].section]
  }

  /** The eighteen mappings have distinct targets, all of them defaults. */
  lemma EnvMappingsDistinct()
    ensures |EnvMappings| == 18
    ensures DistinctTargets(EnvMappings)
  {
    EnvFingerprintsMatch();
    EnvFingerprintsDistinct();
  }

  const EnvFingerprints: seq<(int, char, char)> :=
    [(19, 'd', 'h'), (18, 'd', 'n'), (18, 'd', 'e'), (6, 'd', 'e'), (12, 'c', 'e'), (9, 'b', 'e'),
     (10, 'o', 'l'), (10, 'm', 'e'), (11, 't', 'e'), (10, 'm', 's'), (15, 'e', 's'), (8, 'e', 't'),
     (10, 'a', 'y'), (10, 's', 'y'), (11, 'b', 'e'), (6, 's', 'e'), (7, 'e', 'd'), (5, 'l', 'l')]

  lemma EnvFingerprintsMatch()
    ensures |EnvMappings| == |EnvFingerprints| == 18
    ensures forall i :: 0 <= i < 18 ==> Fingerprint(EnvMappings[i].key) == EnvFingerprints[i]
  {
  }

  lemma EnvFingerprintsDistinct()
    ensures |EnvFingerprints| == 18
    ensures forall i, j :: 0 <= i < j < 18 ==> EnvFingerprints[i] != EnvFingerprints[j]
  {
  }

  /** Length, first and last character of a key: these already tell the
      eighteen keys apart. */
  function Fingerprint(key: string): (int, char, char)
  {
    if key == [] then (0, ' ', ' ') else (|key|, key[0], key[|key| - 1])
  }

  lemma EnvMappingsPresent()
    ensures TargetsPresent(EnvMappings, DefaultConfig())
  {
    var cfg := DefaultConfig();
    assert cfg["download"] == DownloadDefaults() && cfg["transcription"] == TranscriptionDefaults();
    assert cfg["analysis"] == AnalysisDefaults() && cfg["minio"] == MinioDefaults();
    assert cfg["logging"] == LoggingDefaults();
    forall i | 0 <= i < |EnvMappings|
      ensures EnvMappings[i].section in cfg && EnvMappings[i].key in cfg[EnvMappings[i].section]
    {
      if i < 6 {
        assert EnvMappings[i].section in {"download", "transcription"};
      } else if i < 11 {
        assert EnvMappings[i].section == "analysis";
      } else {
        assert EnvMappings[i].section in {"minio", "logging"};
      }
    }
  }

  /** The strings the boolean settings accept as true, after lowercasing. */
  predicate IsTrueWord(raw: string)
  {
    Lower(raw) in {"true", "1", "yes", "on"}
  }

  /** The conversion of `_load_environment_overrides` for the setting
      `(section, key)`: integers through `int()`, the temperature through
      `float()` (the oracle `parseFloat`), the three flags through the true
      words, everything else kept as the string. `None` is a value the
      conversion rejects: that variable is skipped. */
  function Coerce(section: string, key: string, raw: string, parseFloat: string -> Option<real>): (v: Option<Value>)
    ensures (section, key) !in {("transcription", "beam_size"), ("analysis", "max_tokens"), ("analysis", "temperature")}
            ==> v.Some?
    ensures (section, key) in {("transcription", "beam_size"), ("analysis", "max_tokens")} ==>
            (v.Some? <==> ParseInt(raw).Some?) && (v.Some? ==> v.value == Int(ParseInt(raw).value))
    ensures (section, key) in {("analysis", "enable_analysis"), ("minio", "secure"), ("minio", "enabled")} ==>
            v == Some(Bool(IsTrueWord(raw)))
    ensures (section, key) == ("analysis", "temperature") ==>
            (v.Some? <==> parseFloat(raw).Some?) && (v.Some? ==> v.value == Real(parseFloat(raw).value))
    ensures (section, key) !in {("transcription", "beam_size"), ("analysis", "max_tokens"), ("analysis", "temperature"),
                                ("analysis", "enable_analysis"), ("minio", "secure"), ("minio", "enabled")}
            ==> v == Some(Str(raw))
  {
    if section == "transcription" && key == "beam_size" then
      match ParseInt(raw) { case Some(n) => Some(Int(n)) case None => None }
    else if section == "analysis" then
      if key == "temperature" then
        match parseFloat(raw) { case Some(x) => Some(Real(x)) case None => None }
      else if key == "max_tokens" then
        match ParseInt(raw) { case Some(n) => Some(Int(n)) case None => None }
      else if key == "enable_analysis" then Some(Bool(IsTrueWord(raw)))
      else Some(Str(raw))
    else if section == "minio" && (key == "secure" || key == "enabled") then Some(Bool(IsTrueWord(raw)))
    else Some(Str(raw))
  }

  /** `cfg[section][key] = v`, creating the section when it is missing. */
  function SetIn(cfg: Settings, section: string, key: string, v: Value): Settings
  {
    cfg[section := (if section in cfg then cfg[section] else map[])[key := v]]
  }

  /** The value one mapping leaves at its target, given the environment. */
  function Overridden(m: Mapping, env: map<string, string>, parseFloat: string -> Option<real>, before: Value): Value
  {
    if m.envVar in env && Coerce(m.section, m.key, env[m.envVar], parseFloat).Some?
    then Coerce(m.section, m.key, env[m.envVar], parseFloat).value
    else before
  }

  /** The configuration after the mappings `ms` have been applied in order. */
  function ApplyOverrides(cfg: Settings, ms: seq<Mapping>, env: map<string, string>,
                          parseFloat: string -> Option<real>): (r: Settings)
    ensures r.Keys >= cfg.Keys && forall s :: s in cfg ==> r[s].Keys >= cfg[s].Keys
  {
    if ms == [] then cfg
    else
      var prev := ApplyOverrides(cfg, ms[..|ms| - 1], env, parseFloat);
      var m := ms[|ms| - 1];
      if m.envVar in env && Coerce(m.section, m.key, env[m.envVar], parseFloat).Some?
      then SetIn(prev, m.section, m.key, Coerce(m.section, m.key, env[m.envVar], parseFloat).value)
      else prev
  }

  /** Applying overrides whose targets exist keeps every section and every key. */
  lemma {:induction false} ApplyOverridesShape(cfg: Settings, ms: seq<Mapping>, env: map<string, string>,
                                               parseFloat: string -> Option<real>)
    requires TargetsPresent(ms, cfg)
    ensures ApplyOverrides(cfg, ms, env, parseFloat).Keys == cfg.Keys
    ensures forall s :: s in cfg ==> ApplyOverrides(cfg, ms, env, parseFloat)[s].Keys == cfg[s].Keys
  {
    if ms != [] {
      ApplyOverridesShape(cfg, ms[..|ms| - 1], env, parseFloat);
    }
  }

  /** A setting no mapping targets keeps its value. */
  lemma {:induction false} ApplyOverridesFrame(cfg: Settings, ms: seq<Mapping>, env: map<string, string>,
                                               parseFloat: string -> Option<real>, section: string, key: string)
    requires TargetsPresent(ms, cfg)
    requires section in cfg && key in cfg[section]
    requires forall i :: 0 <= i < |ms| ==> (ms[i].section, ms[i].key) != (section, key)
    ensures ApplyOverrides(cfg, ms, env, parseFloat)[section][key] == cfg[section][key]
  {
    if ms != [] {
      ApplyOverridesShape(cfg, ms[..|ms| - 1], env, parseFloat);
      ApplyOverridesFrame(cfg, ms[..|ms| - 1], env, parseFloat, section, key);
    }
  }

  /** The target of mapping `i` holds its converted variable when the
      variable is set and converts, and its previous value otherwise: each
      variable decides its own setting and no other, whatever the order. */
  lemma {:induction false} ApplyOverridesAt(cfg: Settings, ms: seq<Mapping>, env: map<string, string>,
                                            parseFloat: string -> Option<real>, i: nat)
    requires TargetsPresent(ms, cfg) && DistinctTargets(ms)
    requires i < |ms|
    ensures ApplyOverrides(cfg, ms, env, parseFloat)[ms[i].section][ms[i].key]
         == Overridden(ms[i], env, parseFloat, cfg[ms[i].section][ms[i].key])
  {
    var init := ms[..|ms| - 1];
    ApplyOverridesShape(cfg, init, env, parseFloat);
    if i < |ms| - 1 {
      ApplyOverridesAt(cfg, init, env, parseFloat, i);
    } else {
      ApplyOverridesFrame(cfg, init, env, parseFloat, ms[i].section, ms[i].key);
    }
  }

  /** The service's configuration at the target of mapping `i`. */
  lemma DefaultsOverriddenAt(env: map<string, string>, parseFloat: string -> Option<real>, i: nat)
    requires i < |EnvMappings|
    ensures var cfg := ApplyOverrides(DefaultConfig(), EnvMappings, env, parseFloat);
      var m := EnvMappings[i];
      m.section in cfg && m.key in cfg[m.section] && m.section in DefaultConfig() && m.key in DefaultConfig()[m.section]
      && cfg[m.section][m.key] == Overridden(m, env, parseFloat, DefaultConfig()[m.section][m.key])
  {
    EnvMappingsDistinct();
    EnvMappingsPresent();
    ApplyOverridesAt(DefaultConfig(), EnvMappings, env, parseFloat, i);
  }

  /** A `WHISPER_BEAM_SIZE` that `int()` rejects leaves the default beam size. */
  lemma InvalidBeamSizeKeepsDefault(env: map<string, string>, parseFloat: string -> Option<real>)
    requires "WHISPER_BEAM_SIZE" in env && ParseInt(env["WHISPER_BEAM_SIZE"]).None?
    ensures var cfg := ApplyOverrides(DefaultConfig(), EnvMappings, env, parseFloat);
      "transcription" in cfg && "beam_size" in cfg["transcription"] && cfg["transcription"]["beam_size"] == Int(5)
  {
    var m := EnvMappings[5];
    assert m == Mapping("WHISPER_BEAM_SIZE", "transcription", "beam_size");
    assert Coerce(m.section, m.key, env[m.envVar], parseFloat).None? by {
      assert m.section == "transcription" && m.key == "beam_size";
    }
    assert "transcription" in DefaultConfig() && "beam_size" in DefaultConfig()["transcription"]
           && DefaultConfig()["transcription"]["beam_size"] == Int(5);
    DefaultsOverriddenAt(env, parseFloat, 5);
  }

  /** With no variable set, the configuration is the defaults. */
  lemma {:induction false} EmptyEnvironmentKeepsDefaults(cfg: Settings, ms: seq<Mapping>,
                                                         parseFloat: string -> Option<real>)
    ensures ApplyOverrides(cfg, ms, map[], parseFloat) == cfg
  {
    if ms != [] {
      EmptyEnvironmentKeepsDefaults(cfg, ms[..|ms| - 1], parseFloat);
    }
  }

  /** What `get` returns: a whole section, or one value (possibly the default). */
  datatype Lookup = WholeSection(section: Section) | Item(value: Value)

  /** `get(section, key, default)` on `cfg`. */
  function LookupIn(cfg: Settings, section: string, key: Option<string>, default: Value): (r: Lookup)
    ensures section !in cfg ==> r == Item(default)
    ensures section in cfg && key.None? ==> r == WholeSection(cfg[section])
    ensures section in cfg && key.Some? ==>
      r == Item(if key.value in cfg[section] then cfg[section][key.value] else default)
  {
    if section !in cfg then Item(default)
    else if key.None? then WholeSection(cfg[section])
    else if key.value in cfg[section] then Item(cfg[section][key.value])
    else Item(default)
  }

  /** `set` followed by `get` gives the value back, and no other setting moves. */
  lemma SetThenGet(cfg: Settings, section: string, key: string, v: Value, section': string, key': string, d: Value)
    ensures LookupIn(SetIn(cfg, section, key, v), section, Some(key), d) == Item(v)
    ensures (section', key') != (section, key) ==>
      LookupIn(SetIn(cfg, section, key, v), section', Some(key'), d) == LookupIn(cfg, section', Some(key'), d)
  {
  }

  /** `update_section` followed by `get`: updated keys give their new value,
      every other key of the section its old one. */
  lemma UpdateThenGet(cfg: Settings, section: string, updates: Section, key: string, d: Value)
    requires section in cfg
    ensures var merged := cfg[section := cfg[section] + updates];
      LookupIn(merged, section, Some(key), d)
      == if key in updates then Item(updates[key]) else LookupIn(cfg, section, Some(key), d)
  {
  }

  class ConfigService {
    var config: Settings

    /** `__init__`: defaults, then `_load_environment_overrides` on the
        environment `env`. */
    constructor (env: map<string, string>, parseFloat: string -> Option<real>)
      ensures config == ApplyOverrides(DefaultConfig(), EnvMappings, env, parseFloat)
    {
      config := DefaultConfig();
      new;
      LoadEnvironmentOverrides(env, parseFloat);
    }

    /** `_load_environment_overrides`. */
    method LoadEnvironmentOverrides(env: map<string, string>, parseFloat: string -> Option<real>)
      modifies this
      ensures config == ApplyOverrides(old(config), EnvMappings, env, parseFloat)
    {
      ApplyMappings(EnvMappings, env, parseFloat);
    }

    /** The loop of `_load_environment_overrides`, over the mappings `ms`. */
    method ApplyMappings(ms: seq<Mapping>, env: map<string, string>, parseFloat: string -> Option<real>)
      modifies this
      ensures config == ApplyOverrides(old(config), ms, env, parseFloat)
    {
      ghost var start := config;
      var i := 0;
      while i < |ms|
        invariant 0 <= i <= |ms|
        invariant config == ApplyOverrides(start, ms[..i], env, parseFloat)
      {
        assert ms[..i + 1][..i] == ms[..i];
        var m := ms[i];
        if m.envVar in env {
          var v := Coerce(m.section, m.key, env[m.envVar], parseFloat);
          if v.Some? {
            config := SetIn(config, m.section, m.key, v.value);
          }
        }
        i := i + 1;
      }
      assert ms[..i] == ms;
    }

    /** `get` on the current configuration. */
    function Get(section: string, key: Option<string>, default: Value): (r: Lookup)
      reads this
      ensures section !in config ==> r == Item(default)
      ensures section in config && key.None? ==> r == WholeSection(config[section])
      ensures section in config && key.Some? ==>
        r == Item(if key.value in config[section] then config[section][key.value] else default)
    {
      LookupIn(config, section, key, default)
    }

    /** `set`. */
    method Set(section: string, key: string, v: Value)
      modifies this
      ensures config == SetIn(old(config), section, key, v)
      ensures Get(section, Some(key), v) == Item(v)
    {
      config := SetIn(config, section, key, v);
    }

    /** `update_section`: `dict.update` on the section, created when missing. */
    method UpdateSection(section: string, updates: Section)
      modifies this
      ensures config == old(config)[section := (if section in old(config) then old(config)[section] else map[]) + updates]
      ensures forall s :: s in old(config) && s != section ==> s in config && config[s] == old(config)[s]
    {
      var current := if section in config then config[section] else map[];
      config := config[section := current + updates];
    }

    /** `get_all`: a copy of the whole configuration. */
    method GetAll() returns (all: Settings)
      ensures all == config
    {
      all := config;
    }
  }
}
