/** The choice of log level and format made by `_configure_logging`
    (app/__init__.py:98-100). The latch and the backend it configures live in
    the Bootstrap module. */
module Logging {
  import opened Values
  import opened Defaults

  /** Numeric severities of the logging backend. */
  const NotSet: int := 0
  const Debug: int := 10
  const Info: int := 20
  const Warning: int := 30
  const Error: int := 40
  const Critical: int := 50

  /** The upper-case level names the logging backend defines, with their
      severities (WARN and FATAL are aliases of WARNING and CRITICAL). */
  const LevelTable: map<string, int> := map[
    "NOTSET" := NotSet, "DEBUG" := Debug, "INFO" := Info,
    "WARN" := Warning, "WARNING" := Warning, "ERROR" := Error,
    "FATAL" := Critical, "CRITICAL" := Critical]

  /** `str.upper()` on one character: the ASCII letters, plus the two
      non-ASCII letters whose upper case is an ASCII letter (dotless i and
      long s). */
  function UpperChar(c: char): char
  {
    if 'a' <= c <= 'z' then (c as int - 32) as char
    else if c == '\U{0131}' then 'I'
    else if c == '\U{017F}' then 'S'
    else c
  }

  /** `str.upper()` on a string, character by character. */
  function Upper(s: string): string
  {
    seq(|s|, i requires 0 <= i < |s| => UpperChar(s[i]))
  }

  /** `getattr(logging, name.upper(), logging.INFO)` restricted to the level
      names: the severity of the upper-cased name, INFO when it is unknown. */
  function LevelFor(name: string): (level: int)
    ensures level in LevelTable.Values
    ensures Upper(name) !in LevelTable ==> level == Info
  {
    var key := Upper(name);
    assert LevelTable["INFO"] == Info;
    if key in LevelTable then LevelTable[key] else Info
  }

  /** The errors lines 98-99 can raise on a configuration of the wrong shape. */
  datatype LogError =
    | LoggingSectionNotMapping(section: Value) // `.get` called on a non-mapping `logging`
    | LevelNameNotString(name: Value)          // `.upper()` called on a non-string level

  /** What would be handed to the logging backend: a severity and a format. */
  datatype LogSetup = LogSetup(level: int, format: Value)

  /** The level name and the format chosen from the environment override
      `env` (PIISEC_LOG_LEVEL, when present) and the effective configuration.
      `cfg.get("logging", {})` is evaluated before the environment is consulted,
      so a non-mapping `logging` section raises even when the override is set. */
  function ResolveLogging(env: Option<string>, cfg: Tree): (r: Result<LogSetup, LogError>)
    ensures r.Err? <==>
      "logging" in cfg &&
      (!cfg["logging"].VMap? ||
       (env.None? && "level" in cfg["logging"].entries && !cfg["logging"].entries["level"].VStr?))
    ensures r.Ok? ==> r.value.level in LevelTable.Values
    ensures r.Ok? && env.Some? ==> r.value.level == LevelFor(env.value)
    ensures r.Ok? && env.None? && "logging" in cfg && "level" in cfg["logging"].entries ==>
      r.value.level == LevelFor(cfg["logging"].entries["level"].str)
    ensures r.Ok? && env.None? && !("logging" in cfg && "level" in cfg["logging"].entries) ==>
      r.value.level == Info
    ensures r.Ok? && "logging" in cfg && "format" in cfg["logging"].entries ==>
      r.value.format == cfg["logging"].entries["format"]
    ensures r.Ok? && !("logging" in cfg && "format" in cfg["logging"].entries) ==>
      r.value.format == VStr(DefaultFormat)
  {
    var section := Get(cfg, "logging", VMap(map[]));
    if !section.VMap? then Err(LoggingSectionNotMapping(section))
    else
      assert Upper("INFO") == "INFO";
      var fileLevel := Get(section.entries, "level", VStr("INFO"));
      var name := if env.Some? then VStr(env.value) else fileLevel;
      if !name.VStr? then Err(LevelNameNotString(name))
      else Ok(LogSetup(LevelFor(name.str), Get(section.entries, "format", VStr(DefaultFormat))))
  }

  /** Upper-casing is idempotent, so a name and its upper-cased form select the
      same severity. */
  lemma LevelForUpper(name: string)
    ensures Upper(Upper(name)) == Upper(name)
    ensures LevelFor(Upper(name)) == LevelFor(name)
  {
    forall i | 0 <= i < |name|
      ensures UpperChar(UpperChar(name[i])) == UpperChar(name[i])
    {
    }
  }

  /** `s` spells the upper-case ASCII name `n` in any mix of cases, where an
      I may also be written as a dotless i and an S as a long s. */
  ghost predicate CaseVariant(s: string, n: string)
  {
    |s| == |n| &&
    forall i :: 0 <= i < |s| ==>
      || s[i] == n[i]
      || ('A' <= n[i] <= 'Z' && s[i] as int == n[i] as int + 32)
      || (n[i] == 'I' && s[i] == '\U{0131}')
      || (n[i] == 'S' && s[i] == '\U{017F}')
  }

  /** The lookup is case-insensitive: every spelling of a level name in any
      mix of cases selects that level's severity ("ınfo" selects INFO). */
  lemma LevelForCaseVariant(s: string, n: string)
    requires n in LevelTable && CaseVariant(s, n)
    ensures LevelFor(s) == LevelTable[n]
  {
    assert Upper(s) == n;
  }

  /** Whenever the `logging` section is a mapping, the environment override
      decides the level, whatever the file says; an empty override is an
      unknown name and gives INFO. */
  lemma EnvOverridesFileLevel(env: string, cfg: Tree)
    requires "logging" in cfg ==> cfg["logging"].VMap?
    ensures ResolveLogging(Some(env), cfg).Ok?
    ensures ResolveLogging(Some(env), cfg).value.level == LevelFor(env)
    ensures ResolveLogging(Some(""), cfg).value.level == Info
  {
    assert Upper("") == "";
  }
}
