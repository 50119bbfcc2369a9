# logtar, rolling-file logger — a Dafny model

This project models the core of logtar, a small Node.js logger that writes
levelled, timestamped lines to a log file and "rolls" to a new file when the
current one has grown too large or too old.

- `log_level.dfy` (module `LogLevels`): the five severities `Debug`=0,
  `Info`=1, `Warn`=2, `Error`=3, `Critical`=4 as a subset type of `int`, and
  `LogLevel.assert`, which accepts exactly those five numbers.
- `log_config.dfy` (module `Config`): the `LogConfig` class with its
  `#level`, `#rolling_config` and `#file_prefix` fields, the validating
  mutators that change the object in place and return it, `with_defaults`,
  `LogConfig.assert`, and `from_json`. `from_json` is a loop over the keys
  of the object, proved against the fold `FromJsonSpec`. The lemmas about
  that fold say when it succeeds, what the getters then return, and that
  unknown keys are ignored.
- `disk.dfy` (module `Disk`): the file system. The log directory is a map
  from file name to contents plus a birth time per file. `FileSystem` also
  records the sequence of open, write, stat and close calls.
- `logger.dfy` (module `RollingLogger`): the `Logger` class. Its fields are
  the shared config object, the file system and `#log_file_handle`, kept as
  the name of the open file. `init`, `#log`, `#write_to_handle`,
  `#rolling_check` and the five level methods are imperative methods. Each
  is proved against a pure step function over a `World` value (handle,
  directory, operation trace). The lemmas about `LogStep` give the
  behaviour: filtering, one appended line, write before rotation, at most
  one rotation, and the inclusive rotation test.
- `js_values.dfy` (module `JsValues`): the JavaScript values the validators
  see (integral numbers, strings, objects as key/value lists, and everything
  else as truthy or falsy), plus `Option` and `Result`. `Err` stands for a
  thrown exception.

Parts of the program outside this model enter as parameters:
- the ISO time of the write, the caller description (`get_caller_info`),
  the clock at the rotation check, and the ISO time and clock used when a
  rotation reopens are passed to each call in a `CallEnv`;
- `LogLevel.to_string` (in `lib/utils/log-level`) is the `levelName`
  function a `Logger` is built with;
- `RollingConfig.from_json` (in `lib/config/rolling-config`) is the
  `parseRolling` function given to `from_json` and `with_rolling_config`.
  `None` means it threw. The thresholds are plain integers with no
  assumed floor.

Behaviour that follows from the code:
- The file name replaces only the first run of `.`/`:` in the timestamp,
  because the regular expression has no `g` flag. For `2024-01-02T03:04:05.678Z`
  the name keeps `:05.678` (`IsoTimestampRewrite`).
- A default config has no rolling config. An accepted message is therefore
  written, and then `#rolling_check` throws a TypeError when it destructures
  the absent rolling config (`DefaultConfigThrowsAfterWrite`).
- An accepted message sent before `init` throws, because it reads `.fd` of
  `undefined`. A filtered message never reaches that read.
- `init` opens with `"a+"`. A name that already exists, such as two inits in
  the same millisecond, is reopened with its contents and birth time kept.
- `with_file_prefix` accepts the empty string. `LogConfig.assert` rejects an
  explicit `undefined`, but a call with no argument passes.

`lib/config/log-config.js` defines `with_log_level` twice with identical
bodies (lines 53-57 and 88-92); the model has one. The duplicate `LogConfig`
in `index.js` has the same defaults (`index.js:37-42`), validates the level
the same way (`index.js:58-61`) and has the same `assert` rule
(`index.js:44-52`); the model follows `lib/config/log-config.js`. The
`LogLevel` constants are taken from `index.js:1-25`; `lib/utils/log-level`,
which `lib/logger.js` and `lib/config/log-config.js` import, is not part of
this model.

## Model

| member | source | states |
|---|---|---|
| LogLevels.AssertLevel | index.js:8-24 | passes exactly for the numbers 0..4, so look-alikes such as the string "1" throw |
| LogLevels.SeverityOrder | index.js:1-6 | Debug < Info < Warn < Error < Critical, and the accepted list holds the integers 0..4 in order |
| LogLevels.LookalikesRejected | index.js:9-23 | "1", 5, -1 and undefined are all rejected |
| Config.LogConfig.constructor | lib/config/log-config.js:6-11 | a fresh config has level Info, prefix "Logtar_" and no rolling config |
| Config.LogConfig.WithDefaults | lib/config/log-config.js:23-25 | returns a new object holding the defaults |
| Config.LogConfig.WithLogLevel | lib/config/log-config.js:88-92 | with one of the five levels: sets the level, changes nothing else and returns this same object; otherwise throws and the config is unchanged |
| Config.LogConfig.WithRollingConfig | lib/config/log-config.js:59-62 | stores what RollingConfig.from_json builds and returns this object; when that throws, the config is unchanged |
| Config.LogConfig.WithFilePrefix | lib/config/log-config.js:71-82 | any string, empty included, becomes the prefix and this object is returned; a non-string throws and leaves the prefix as it was |
| Config.LogConfig.FromJson | lib/config/log-config.js:27-45 | the key loop yields a fresh config exactly when the fold succeeds, holding the fold's value, and otherwise throws the fold's first error |
| Config.ErrorIsFinal | lib/config/log-config.js:30-42 | once one key has thrown, the walk ends with that error |
| Config.ApplyEntry | lib/config/log-config.js:31-41 | an unrecognised key leaves the settings as they are; a recognised one changes at most its own field; whether it throws depends only on the key and the value, not on the settings so far; a throw is the validation error of that key (`InvalidLevel`, `InvalidRollingConfig` or `InvalidPrefix`) carrying the value |
| Config.FromJsonSpec | lib/config/log-config.js:27-45 | from_json, as a fold over the keys from the defaults that stops at the first throw; whatever it throws is a level, rolling-config or prefix error, never the LogConfig type error |
| Config.FromJsonOkIff | lib/config/log-config.js:28-42 | from_json returns a config if and only if every recognised key carries a value its validator accepts |
| Config.FromJsonValues | lib/config/log-config.js:28-44 | after a successful from_json the getters return the supplied level, rolling config and prefix, and the defaults for absent keys |
| Config.UnknownKeysIgnored | lib/config/log-config.js:31-41 | dropping every key other than level, rolling_config and file_prefix does not change the result |
| Config.FromJsonRoundTrip | lib/config/log-config.js:28-44 | {level, some unknown key, file_prefix} gives back exactly that level and prefix, with no rolling config |
| Config.AssertConfig | lib/config/log-config.js:13-21 | LogConfig.assert passes exactly when no argument is given or the argument is a LogConfig; every plain value throws, explicit undefined included |
| Disk.OpenAppend | lib/logger.js:25-28 | opening with "a+" creates an empty file born now if absent and keeps every existing file's contents and birth time |
| Disk.Append | lib/logger.js:91 | a write appends the text to that file and leaves every other file and all birth times unchanged |
| Disk.FileSystem.Open | lib/logger.js:25-28 | the directory becomes OpenAppend of the old one and the open is recorded |
| Disk.FileSystem.Write | lib/logger.js:91 | the directory becomes Append of the old one and the write is recorded |
| Disk.FileSystem.Stat | lib/logger.js:97 | returns the file's length and birth time and records the stat |
| Disk.FileSystem.Close | lib/logger.js:104 | records the close and changes no file |
| RollingLogger.DropSeparators | lib/logger.js:23 | the result is a suffix of its argument that does not start with a separator |
| RollingLogger.DroppedAreSeparators | lib/logger.js:23 | every character `DropSeparators` removes is a separator, so together with its own contract it removes exactly the leading run |
| RollingLogger.ReplaceFirstRun | lib/logger.js:23 | the rewrite never lengthens the timestamp |
| RollingLogger.ReplaceFirstRunIdentity | lib/logger.js:23 | a timestamp without "." or ":" is left unchanged |
| RollingLogger.ReplaceFirstRunSplit | lib/logger.js:23 | only the first maximal run of "." and ":" becomes one "-"; the text before and after it, later separators included, is kept |
| RollingLogger.IsoTimestampRewrite | lib/logger.js:22-24 | for an ISO timestamp only the hour:minute colon is replaced; the second colon and the millisecond dot remain |
| RollingLogger.FileName | lib/logger.js:22-24 | the name starts with the prefix, ends in ".log" and is at most prefix + timestamp + 4 long |
| RollingLogger.FormatLine | lib/logger.js:89 | the line starts with "[" and the ISO time and ends with a line break |
| RollingLogger.FormatLineIsOneLine | lib/logger.js:89-91 | when its parts hold no line break, the written text is exactly one line |
| RollingLogger.InitStep | lib/logger.js:19-29 | after init the handle names FileName(prefix, iso) and that file exists |
| RollingLogger.InitKeepsExistingFiles | lib/logger.js:25-28 | init adds at most its own file, empty when new, and keeps every existing file's contents and birth time |
| RollingLogger.RollingCheckStep | lib/logger.js:94-107 | the rotation check keeps the directory and handle consistent |
| RollingLogger.LogStep | lib/logger.js:76-83 | a log call keeps the directory and handle consistent |
| RollingLogger.FilteredIsSilent | lib/logger.js:77-79 | a message below the configured level changes nothing (no write, stat, close or open) and does not consult the handle |
| RollingLogger.UninitialisedThrows | lib/logger.js:77 | an accepted message before init throws and changes nothing |
| RollingLogger.AcceptedAppendsOneLine | lib/logger.js:81-91 | an accepted message appends exactly its formatted line to the current file, even across a rotation to the same name; no other existing file changes, and only a rotation can add a file, which is empty |
| RollingLogger.WriteThenAtMostOneRotation | lib/logger.js:81-106 | the write is the first operation, so the triggering line lands in the old file; then at most one close and one open follow, close first, whatever the excess |
| RollingLogger.RollingCheckOps | lib/logger.js:94-107 | a rotation check adds nothing without a rolling config; with one it stats the current file and, exactly when it rolls, closes it and opens the new name, and otherwise does only the stat |
| RollingLogger.ShouldRoll | lib/logger.js:100-103 | the rotation test: reaching the size threshold rolls, reaching threshold * 1000 ms of age rolls, both inclusive, and nothing else does |
| RollingLogger.RollsIff | lib/logger.js:100-103 | the call rolls if and only if the size after the write reaches the size threshold or the age reaches threshold * 1000 ms, both inclusive; it then switches to the new name |
| RollingLogger.DefaultConfigThrowsAfterWrite | lib/logger.js:76-95 | with the default config an accepted line is written and the rotation check then throws, with no stat |
| RollingLogger.Logger.constructor | lib/logger.js:51-55 | stores the config object, the file system and the level renderer; no file is open, so the logger is consistent with any well-formed directory |
| JsValues.Truthy | lib/logger.js:52 | the falsy values `||=` replaces are exactly 0, the empty string and the other falsy primitives (undefined, null, false, NaN); every object is truthy |
| RollingLogger.ArgTruthy | lib/logger.js:52-53 | a LogConfig argument is always truthy, so `||=` never replaces it; among the truthy arguments exactly the LogConfig ones pass the assert |
| RollingLogger.Logger.Create | lib/logger.js:51-55 | a missing or falsy argument gets a fresh default config; a LogConfig is kept by reference; any other truthy value throws |
| RollingLogger.Logger.WithDefaults | lib/logger.js:35-37 | a new logger over a fresh default config |
| RollingLogger.Logger.WithConfig | lib/logger.js:44-46 | behaves as the constructor on the same argument: on success a fresh logger over the same file system and level renderer, with no file open |
| RollingLogger.Logger.Level | lib/logger.js:60-62 | reads the level of the shared config |
| RollingLogger.Logger.FilePrefix | lib/logger.js:64-66 | reads the prefix of the shared config |
| RollingLogger.Logger.TimeThreshold | lib/logger.js:68-70 | the time threshold of the rolling config; throws when there is none |
| RollingLogger.Logger.SizeThreshold | lib/logger.js:72-74 | the size threshold of the rolling config; throws when there is none |
| RollingLogger.Logger.Init | lib/logger.js:19-29 | the new state is InitStep of the old one: the file is opened for append and becomes current; the old handle is not closed |
| RollingLogger.Logger.WriteToHandle | lib/logger.js:85-92 | appends the formatted line to the current file and records the write |
| RollingLogger.Logger.RollingCheck | lib/logger.js:94-107 | the new state and outcome are RollingCheckStep of the old state |
| RollingLogger.Logger.Log | lib/logger.js:76-83 | the new state and outcome are LogStep of the old state under the config's current value |
| RollingLogger.Logger.Debug | lib/logger.js:109-111 | a log call at Debug |
| RollingLogger.Logger.Info | lib/logger.js:113-115 | a log call at Info |
| RollingLogger.Logger.Warn | lib/logger.js:117-119 | a log call at Warn |
| RollingLogger.Logger.Error | lib/logger.js:121-123 | a log call at Error |
| RollingLogger.Logger.Critical | lib/logger.js:125-127 | a log call at Critical |

## Left out

- Real file I/O (`fs.open`, `write`, `stat`, `close`), `check_and_create_dir("logs")` and `path.join`: these are replaced by the abstract directory in `Disk`, keyed by the file name inside the log directory. I/O failures are not modelled: open, write, stat and close always succeed, so the closed-but-not-reopened handle state is never reached.
- File size is the length of the contents in characters, not UTF-8 bytes. The two agree for ASCII text.
- The clock and `toISOString()`: times and ISO strings are parameters, so nothing relates an ISO string to its millisecond value.
- `get_caller_info` and `LogLevel.to_string` are in files that are not part of this model. They are a parameter string and a parameter function.
- `RollingConfig.from_json` and its threshold validation are not part of this model. `parseRolling` is a parameter and no bounds are assumed.
- `LogConfig.from_file` (reading a file and `JSON.parse`): this is I/O and library parsing.
- `Config.LogConfig.FromJson`: models its input as the object's own keys and values in `Object.keys` order. What `Object.keys` does for a non-object argument (it throws for `null`, returns indices for a string) is not modelled.
- Asynchrony: the level methods fire `#log` without awaiting it, so calls can interleave and a rejection goes unhandled. Each `#log` call is modelled as one atomic step whose outcome is how its promise settles.
- `RollingLogger.Logger.Log`: the `.fd` test treats every open handle as truthy. Node gives an open handle a positive descriptor, so `!fd` never stops a write to an open handle.
- `index.js`'s duplicate `Logger` and `LogConfig` are not modelled separately. Its `with_rolling_config` reads an undeclared `config`. A doc comment opened at `index.js:69` is "closed" with `* /` at line 75, which leaves the rest of the file inside an unterminated comment.
- Messages are modelled as strings already converted by the template literal in `#write_to_handle`. The model does not show that `undefined` becomes "undefined", an object becomes "[object Object]", or a Symbol throws before anything is written.
- `test.js` is a demo script that performs I/O and asserts nothing.
