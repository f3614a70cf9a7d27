# PII-sec configuration bootstrap, modelled in Dafny

The PII-sec firewall package (`app/__init__.py`) sets itself up when it is imported.
It picks a configuration file path, from the `PIISEC_CONFIG` environment variable or the packaged default.
It reads and parses that file, keeping the result only when it is a mapping.
It deep-merges the result over a built-in safe baseline: TLS required, an empty permit list, the policy actions BLOCK, REDACT and ALLOW, and INFO logging.
It then configures the logging backend once, behind a write-once latch.
Accessors return the stored configuration and pick logger names, and a reload repeats the read, the merge and the latch.

The project is organised as follows:

- `values.dfy`, module `Values`: parsed values (`Value`: mapping, string, bool, int, float, list, null), configuration trees, Python truthiness, and the `Option` and `Result` wrappers.
- `defaults.dfy`, module `Defaults`: `DEFAULT_CONFIG` (the constant `DefaultConfig`) and the default log format.
- `merge.dfy`, module `ConfigMerge`: `_deep_merge`.
  - `Merge` is the specification function.
  - `DeepMerge` is the source's loop over the override's keys, written as a recursive method. It is proved equal to `Merge`.
  - The lemmas give the per-key behaviour and the algebra: identities, idempotence, re-applying an override, and non-associativity.
- `loader.dfy`, module `FileLoader`: the shape filter of `_load_file_config`. Its input is the outcome of probing and parsing the file (`Missing | ProbeRaised | Failed | Parsed(doc)`). The existence check on line 80 stands outside the `try`, so an error it raises is returned as `Err`; every other failure degrades to `{}`.
- `logging.dfy`, module `Logging`: the level and format choice of `_configure_logging`.
  - `str.upper()` and the level-name table are modelled.
  - The two ways lines 98-99 raise on a badly shaped configuration are returned as `Err`.
- `bootstrap.dfy`, module `Bootstrap`:
  - `CONFIG_PATH` selection, the default logger name, and the effective configuration.
  - The `Package` class. It holds the module globals `_CONFIG` and `_LOGGING_CONFIGURED`, the import-time path, and the list of setups handed to the logging backend.
  - `Package.Valid()` is the latch invariant: at most one setup is ever applied, and the flag is true exactly when one has been.

Environment variables are a `map<string, string>` parameter. The file system is a parameter `disk: string -> ParseOutcome`.

## Model

| member | source | states |
|---|---|---|
| `Defaults.DefaultsAreSafe` | app/__init__.py:45-59 | The baseline requires TLS, has an empty permit list, blocks insecure transport, redacts non-permitted PHI, allows otherwise, and logs at INFO with the default format. |
| `ConfigMerge.DeepMerge` | app/__init__.py:68-76 | The loop copies the base and assigns each override key, in any order. Its result equals the specification merge of the base with `override or {}`. |
| `ConfigMerge.MergeKeys` | app/__init__.py:70-76 | The merged keys are exactly the union of the base keys and the override keys. |
| `ConfigMerge.MergeKeepsBaseOnly` | app/__init__.py:70 | A key that only the base holds keeps the base's value unchanged. |
| `ConfigMerge.MergeOverrideWins` | app/__init__.py:72-75 | Unless both sides hold mappings, the override's value is stored verbatim. This includes a mapping replaced by a scalar, and a list replaced whole. |
| `ConfigMerge.MergeRecurses` | app/__init__.py:72-73 | Where both sides hold mappings, the result holds their recursive merge. |
| `ConfigMerge.MergeEmptyOverride` | app/__init__.py:70-71 | An empty override, and an absent (None) one through `override or {}`, gives back the base. |
| `ConfigMerge.MergeEmptyBase` | app/__init__.py:70-75 | Merging onto an empty base gives back the override. |
| `ConfigMerge.MergeSelf` | app/__init__.py:68-76 | Merging a tree with itself gives it back, at every depth. |
| `ConfigMerge.MergeOverrideTwice` | app/__init__.py:68-76 | Re-applying the same override to a merge result changes nothing. |
| `ConfigMerge.MergeNotAssociative` | app/__init__.py:72-75 | There are three trees whose merges in the two groupings differ. A scalar in the middle tree discards the nested mapping of the first tree in only one grouping. |
| `FileLoader.LoadFileConfig` | app/__init__.py:79-90 | It raises exactly when the existence check raises. A parsed mapping is returned unchanged. Any non-empty result is the parsed mapping itself. |
| `FileLoader.LoadDegradesToEmpty` | app/__init__.py:80-90 | Unless the existence check raises, a missing file, a read or parse failure, a falsy document, or a non-mapping document gives `{}`. |
| `Logging.LevelFor` | app/__init__.py:99 | The severity is always one of the table's levels. A name whose upper-case form is not in the table gives INFO. |
| `Logging.ResolveLogging` | app/__init__.py:98-100 | It raises exactly when `logging` is present but not a mapping (whatever the environment says), or when, with no override, `logging.level` is present but not a string. Otherwise the level comes from the override if present, else `logging.level`, else INFO. The format is `logging.format`, else the default format. |
| `Logging.LevelForUpper` | app/__init__.py:99 | Upper-casing is idempotent. A name and its upper-cased form select the same severity. |
| `Logging.LevelForCaseVariant` | app/__init__.py:99 | Any mix of cases of a level name selects that level's severity, including an I written as a dotless i or an S as a long s. |
| `Logging.EnvOverridesFileLevel` | app/__init__.py:98-99 | When `logging` is a mapping, the environment override decides the level, whatever the file says. An empty override gives INFO. |
| `Bootstrap.ResolveConfigPath` | app/__init__.py:38-40 | The path is the `PIISEC_CONFIG` value when it is set and non-empty, else the packaged default path. |
| `Bootstrap.LoggerName` | app/__init__.py:120-122 | A non-empty name is kept. None and `""` both give `"piisec"`. The chosen name is never empty. |
| `Bootstrap.UnusableFileGivesDefaults` | app/__init__.py:109-110 | With a missing or unusable file whose probe does not raise, the effective configuration is exactly `DEFAULT_CONFIG`, so `transport.require_tls` is true. |
| `Bootstrap.EffectiveConfigKeepsDefaults` | app/__init__.py:45-59 | Every default section survives a reload. A section that the file does not mention keeps its default value. |
| `Bootstrap.DebugLevelFileExample` | app/__init__.py:55-58 | A file setting only `logging.level: DEBUG` yields DEBUG with the default format. The transport, permit list and policy sections stay at their defaults. |
| `Bootstrap.PolicyOverrideExample` | app/__init__.py:48-54 | A file setting only `policy.actions.otherwise: BLOCK` changes that action and keeps its two siblings. |
| `Bootstrap.EnvDebugOverFileError` | app/__init__.py:98-99 | With the file saying ERROR and the environment override saying DEBUG, the backend setup is DEBUG with the default format. |
| `Bootstrap.LoggingFailsOnlyOnBadFile` | app/__init__.py:98-110 | After merging a file onto the defaults, choosing the log level (lines 98-99) raises if and only if the file's `logging` is not a mapping, or the file's level is not a string and no override is set. |
| `Bootstrap.Package.constructor` | app/__init__.py:39-62 | The path is resolved once from the environment. The configuration starts empty and logging starts unconfigured. |
| `Bootstrap.Package.ConfigureLogging` | app/__init__.py:93-103 | Once the latch is set, nothing changes. Otherwise the resolved setup is applied once and the latch is set. A raise applies nothing and leaves the latch open. The latch invariant is kept. |
| `Bootstrap.Package.Reload` | app/__init__.py:106-112 | When the file's existence check raises, it raises before storing anything, and the configuration and the latch are unchanged. Otherwise it stores the merge of `DEFAULT_CONFIG` with the file read at the import-time path, and returns the stored value. The new configuration stays stored even when logging then raises. The backend is configured at most once, with the first successful setup. |
| `Bootstrap.Package.GetConfig` | app/__init__.py:115-117 | Returns the configuration stored by the latest reload. |
| `Bootstrap.Import` | app/__init__.py:125-126 | Importing fixes the path and runs one reload. If the existence check raises, the configuration stays empty and logging unconfigured. Otherwise the configuration is the effective one, with logging configured unless the file's shape makes it raise. |
| `Bootstrap.ReloadKeepsFirstLevel` | app/__init__.py:94-96 | First the package is imported with the file saying ERROR and the override DEBUG. A later reload without the override still leaves only the DEBUG setup applied. |

## Left out

- Reading and parsing the file (`path.exists`, `path.open`, `yaml.safe_load`) are not modelled. Their outcome is an input, including an error raised by the existence check itself (for instance a permission error on a parent directory). Parsed values have no dates, binary data or non-string mapping keys.
- The fatal import guard for a missing parser library (lines 27-30) is not modelled. It contains no logic.
- `logging.basicConfig`, `logging.getLogger` and the import-time debug log line are external. The model records each `(level, format)` setup that would be applied.
  - It does not model `basicConfig` ignoring a call when the root logger already has handlers.
  - It does not model `basicConfig` rejecting a format string, or a format value that is not a string.
- `Logging.LevelFor`: `getattr(logging, name)` is limited to the eight level names.
  - Python would also accept other upper-case attributes of the logging module. For example, `BASIC_FORMAT` would return a string that `basicConfig` then rejects.
  - `str.upper()` is modelled for ASCII letters, dotless i and long s. Other Unicode case mappings are left as they are. None of them can produce a level name.
- An exception escaping the import-time reload, which would abort the import itself, is not modelled. `Bootstrap.Import` returns it as `Err`.
- Resolving the package directory (`Path(__file__).resolve()`) is not modelled. Paths are opaque strings.
- The guarded optional imports (`Detector`, `Policy`, `Actions`, `AuditLogger`), `__version__` and `__all__` are not modelled. They have no logic here.
- Dictionary insertion order is not modelled. Configuration trees are values.
- Sharing of nested dictionaries is not modelled. The copy on line 70 is shallow, so sections the file does not override are the very dictionaries of `DEFAULT_CONFIG`. A caller that mutates the object returned by `get_config` in place would therefore change the defaults used by later reloads.
- Concurrent reloads are not modelled. The source is single-threaded.
