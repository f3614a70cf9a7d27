/** The package bootstrap: the configuration path chosen at import, the
    process-wide configuration and logging latch, reload and the accessors
    (app/__init__.py:37-40, 61-62, 93-128). */
module Bootstrap {
  import opened Values
  import opened Defaults
  import opened ConfigMerge
  import opened FileLoader
  import opened Logging

  /** The environment variables the package reads. */
  const ConfigPathVar: string := "PIISEC_CONFIG"
  const LogLevelVar: string := "PIISEC_LOG_LEVEL"

  /** The logger namespace used when no name is given. */
  const DefaultLoggerName: string := "piisec"

  /** The process environment: variable names to values. */
  type Environment = map<string, string>

  /** `os.getenv(name)`: the value when the variable is set, even to "". */
  function GetEnv(env: Environment, name: string): Option<string>
  {
    if name in env then Some(env[name]) else None
  }

  /** `CONFIG_PATH`: the PIISEC_CONFIG value when it is set and non-empty,
      otherwise the packaged default path. */
  function ResolveConfigPath(env: Environment, defaultPath: string): (path: string)
    ensures ConfigPathVar in env && env[ConfigPathVar] != "" ==> path == env[ConfigPathVar]
    ensures ConfigPathVar !in env || env[ConfigPathVar] == "" ==> path == defaultPath
  {
    var fromEnv := GetEnv(env, ConfigPathVar);
    if fromEnv.Some? && fromEnv.value != "" then fromEnv.value else defaultPath
  }

  /** `get_logger`'s choice of name: `name or "piisec"`, so that None and the
      empty name both select the package namespace, and no logger name is
      ever empty. */
  function LoggerName(name: Option<string>): (r: string)
    ensures r != ""
    ensures name.Some? && name.value != "" ==> r == name.value
    ensures name.None? || name.value == "" ==> r == DefaultLoggerName
  {
    if name.Some? && name.value != "" then name.value else DefaultLoggerName
  }

  /** Why a reload raised: the file probe, or configuring logging. */
  datatype ReloadError = LoadFailed(load: LoadError) | LoggingFailed(logging: LogError)

  /** The configuration a reload computes from the file's override mapping. */
  function EffectiveConfig(file: Tree): Tree
  {
    Merge(DefaultConfig, file)
  }

  /** A missing, unreadable, empty or non-mapping file leaves exactly the
      defaults in force (TLS still required, for one). */
  lemma UnusableFileGivesDefaults(outcome: ParseOutcome)
    requires !outcome.ProbeRaised? && !(outcome.Parsed? && outcome.doc.VMap?)
    ensures LoadFileConfig(outcome).Ok?
    ensures EffectiveConfig(LoadFileConfig(outcome).value) == DefaultConfig
    ensures EffectiveConfig(LoadFileConfig(outcome).value)["transport"].entries["require_tls"] == VBool(true)
  {
    MergeEmptyOverride(DefaultConfig);
  }

  /** Every default key survives a reload, and a default the file does not
      mention keeps its default value. */
  lemma EffectiveConfigKeepsDefaults(file: Tree, k: string)
    requires k in DefaultConfig
    ensures k in EffectiveConfig(file)
    ensures k !in file ==> EffectiveConfig(file)[k] == DefaultConfig[k]
  {
  }

  /** A file that sets only `logging.level` to DEBUG yields DEBUG there, keeps
      the default format beside it and leaves the other sections untouched. */
  lemma DebugLevelFileExample()
    ensures
      var cfg := EffectiveConfig(map["logging" := VMap(map["level" := VStr("DEBUG")])]);
      && cfg.Keys == DefaultConfig.Keys
      && cfg["logging"] == VMap(map["level" := VStr("DEBUG"), "format" := VStr(DefaultFormat)])
      && cfg["transport"] == DefaultConfig["transport"]
      && cfg["permit_list"] == DefaultConfig["permit_list"]
      && cfg["policy"] == DefaultConfig["policy"]
  {
    var file := map["logging" := VMap(map["level" := VStr("DEBUG")])];
    MergeRecurses(DefaultConfig, file, "logging");
    var logging := Merge(DefaultConfig["logging"].entries, file["logging"].entries);
    assert logging == map["level" := VStr("DEBUG"), "format" := VStr(DefaultFormat)];
  }

  /** A nested override replaces one policy action and leaves its siblings
      and the other sections at their defaults. */
  lemma PolicyOverrideExample()
    ensures
      var file := map["policy" := VMap(map["actions" := VMap(map["otherwise" := VStr("BLOCK")])])];
      var actions := EffectiveConfig(file)["policy"].entries["actions"].entries;
      && actions.Keys == {"insecure_transport", "contains_phi_not_permitted", "otherwise"}
      && actions["otherwise"] == VStr("BLOCK")
      && actions["insecure_transport"] == VStr("BLOCK")
      && actions["contains_phi_not_permitted"] == VStr("REDACT")
  {
    var fileActions := map["otherwise" := VStr("BLOCK")];
    var filePolicy := map["actions" := VMap(fileActions)];
    var file := map["policy" := VMap(filePolicy)];
    var defaultPolicy := DefaultConfig["policy"].entries;
    var defaultActions := defaultPolicy["actions"].entries;
    MergeRecurses(DefaultConfig, file, "policy");
    MergeRecurses(defaultPolicy, filePolicy, "actions");
    var actions := Merge(defaultActions, fileActions);
    MergeKeys(defaultActions, fileActions);
    MergeOverrideWins(defaultActions, fileActions, "otherwise");
    MergeKeepsBaseOnly(defaultActions, fileActions, "insecure_transport");
    MergeKeepsBaseOnly(defaultActions, fileActions, "contains_phi_not_permitted");
  }

  /** With the file saying ERROR and the override saying DEBUG, the backend
      is to be set to DEBUG with the default format. */
  lemma EnvDebugOverFileError()
    ensures
      var file := map["logging" := VMap(map["level" := VStr("ERROR")])];
      ResolveLogging(Some("DEBUG"), EffectiveConfig(file)) == Ok(LogSetup(Debug, VStr(DefaultFormat)))
  {
    var fileLogging := map["level" := VStr("ERROR")];
    var file := map["logging" := VMap(fileLogging)];
    var defaultLogging := DefaultConfig["logging"].entries;
    MergeRecurses(DefaultConfig, file, "logging");
    MergeKeepsBaseOnly(defaultLogging, fileLogging, "format");
    assert Upper("DEBUG") == "DEBUG";
  }

  /** Choosing the log level after a reload can fail only because of the file:
      when its `logging` section is not a mapping (whatever the environment
      says), or when it sets a non-string level and no environment override
      is present. */
  lemma LoggingFailsOnlyOnBadFile(env: Option<string>, file: Tree)
    ensures ResolveLogging(env, Merge(DefaultConfig, file)).Err? <==>
      "logging" in file &&
      (!file["logging"].VMap? ||
       (env.None? && "level" in file["logging"].entries && !file["logging"].entries["level"].VStr?))
  {
    var cfg := Merge(DefaultConfig, file);
    if "logging" in file && file["logging"].VMap? {
      MergeRecurses(DefaultConfig, file, "logging");
      var section := Merge(DefaultConfig["logging"].entries, file["logging"].entries);
      assert cfg["logging"] == VMap(section);
      assert "level" in section;
      if "level" !in file["logging"].entries {
        assert section["level"] == VStr("INFO");
      } else {
        assert section["level"] == file["logging"].entries["level"];
      }
    } else if "logging" in file {
      MergeOverrideWins(DefaultConfig, file, "logging");
    } else {
      assert cfg["logging"] == DefaultConfig["logging"];
    }
  }

  /** The process-wide state of the package: the configuration path fixed at
      import, the stored configuration, the logging latch, and the setups
      applied to the logging backend, in order. */
  class Package {
    const configPath: string
    var config: Tree
    var loggingConfigured: bool
    var applied: seq<LogSetup>

    /** The latch: the backend is configured at most once, and the flag says
        whether it has been. */
    ghost predicate Valid()
      reads this
    {
      |applied| <= 1 && (loggingConfigured <==> |applied| == 1)
    }

    /** The module globals before the import-time reload: the path chosen from
        PIISEC_CONFIG once, an empty configuration, logging not configured. */
    constructor (env: Environment, defaultPath: string)
      ensures Valid()
      ensures configPath == ResolveConfigPath(env, defaultPath)
      ensures config == map[] && !loggingConfigured && applied == []
    {
      configPath := ResolveConfigPath(env, defaultPath);
      config := map[];
      loggingConfigured := false;
      applied := [];
    }

    /** `_configure_logging`: a no-op once the latch is set; otherwise choose
        the level and format, apply them to the backend and set the latch. A
        raise leaves the latch open and the backend untouched. */
    method ConfigureLogging(cfg: Tree, env: Environment) returns (outcome: Result<(), LogError>)
      requires Valid()
      modifies this`loggingConfigured, this`applied
      ensures Valid()
      ensures loggingConfigured == (old(loggingConfigured) || outcome.Ok?)
      ensures old(loggingConfigured) ==> outcome.Ok? && applied == old(applied)
      ensures !old(loggingConfigured) ==>
        match ResolveLogging(GetEnv(env, LogLevelVar), cfg)
        case Ok(setup) => outcome.Ok? && applied == [setup]
        case Err(e) => outcome == Err(e) && applied == []
    {
      if loggingConfigured {
        return Ok(());
      }
      var chosen := ResolveLogging(GetEnv(env, LogLevelVar), cfg);
      if chosen.Err? {
        return Err(chosen.error);
      }
      applied := applied + [chosen.value];
      loggingConfigured := true;
      outcome := Ok(());
    }

    /** `reload_config`: read the file at the path fixed at import (never
        PIISEC_CONFIG again), store the defaults merged with it, then run the
        logging latch. When the existence check raises, nothing is stored and
        the latch is not reached. Otherwise the new configuration is stored
        before logging is configured, so it stays in force when that raises. */
    method Reload(env: Environment, disk: string -> ParseOutcome) returns (r: Result<Tree, ReloadError>)
      requires Valid()
      modifies this`config, this`loggingConfigured, this`applied
      ensures Valid()
      ensures
        match LoadFileConfig(disk(configPath))
        case Err(e) =>
          && r == Err(LoadFailed(e))
          && config == old(config)
          && loggingConfigured == old(loggingConfigured)
          && applied == old(applied)
        case Ok(file) =>
          && config == EffectiveConfig(file)
          && (r.Ok? ==> r.value == config)
          && loggingConfigured == (old(loggingConfigured) || r.Ok?)
          && (old(loggingConfigured) ==> r.Ok? && applied == old(applied))
          && (!old(loggingConfigured) ==>
                match ResolveLogging(GetEnv(env, LogLevelVar), config)
                case Ok(setup) => r.Ok? && applied == [setup]
                case Err(e) => r == Err(LoggingFailed(e)) && applied == [])
    {
      var loaded := LoadFileConfig(disk(configPath));
      if loaded.Err? {
        return Err(LoadFailed(loaded.error));
      }
      config := DeepMerge(DefaultConfig, Some(loaded.value));
      var outcome := ConfigureLogging(config, env);
      if outcome.Err? {
        return Err(LoggingFailed(outcome.error));
      }
      r := Ok(config);
    }

    /** `get_config`: the configuration stored by the latest reload. */
    method GetConfig() returns (c: Tree)
      ensures c == config
    {
      c := config;
    }
  }

  /** Importing the package: fix the path, then reload once. */
  method Import(env: Environment, defaultPath: string, disk: string -> ParseOutcome)
    returns (p: Package, r: Result<Tree, ReloadError>)
    ensures fresh(p) && p.Valid()
    ensures p.configPath == ResolveConfigPath(env, defaultPath)
    ensures
      match LoadFileConfig(disk(p.configPath))
      case Err(e) =>
        r == Err(LoadFailed(e)) && p.config == map[] && !p.loggingConfigured && p.applied == []
      case Ok(file) =>
        && p.config == EffectiveConfig(file)
        && (r.Ok? ==> r.value == p.config)
        && match ResolveLogging(GetEnv(env, LogLevelVar), p.config)
           case Ok(setup) => r.Ok? && p.loggingConfigured && p.applied == [setup]
           case Err(e) => r == Err(LoggingFailed(e)) && !p.loggingConfigured && p.applied == []
  {
    p := new Package(env, defaultPath);
    r := p.Reload(env, disk);
  }

  /** Two reloads with different level overrides: the backend keeps the level
      of the first, because the second reload finds the latch set. With the
      file saying ERROR and the override DEBUG at import, DEBUG is applied;
      a later reload with the override removed applies nothing more. */
  method ReloadKeepsFirstLevel() returns (setups: seq<LogSetup>)
    ensures setups == [LogSetup(Debug, VStr(DefaultFormat))]
  {
    var file := Parsed(VMap(map["logging" := VMap(map["level" := VStr("ERROR")])]));
    var disk := (path: string) => file;
    var env := map[ConfigPathVar := "/etc/piisec.yaml", LogLevelVar := "DEBUG"];
    var p, r := Import(env, "app/config.yaml", disk);
    EnvDebugOverFileError();
    assert disk(p.configPath) == file;
    assert LoadFileConfig(file) == Ok(map["logging" := VMap(map["level" := VStr("ERROR")])]);
    assert GetEnv(env, LogLevelVar) == Some("DEBUG");
    assert p.applied == [LogSetup(Debug, VStr(DefaultFormat))];
    var r2 := p.Reload(map[], disk);
    setups := p.applied;
  }
}
