/** `Logger`: filters by level, appends one formatted line to the current log
    file, then checks whether that file has grown too large or too old and, if
    so, closes it and opens a fresh one. */
module RollingLogger {
  import opened JsValues
  import opened LogLevels
  import opened Config
  import opened Disk

  // ---------------------------------------------------------------------
  // File names

  /** The characters matched by the class `[\.:]`. */
  predicate IsSeparator(c: char)
  {
    c == '.' || c == ':'
  }

  predicate NoSeparator(s: string)
  {
    forall k :: 0 <= k < |s| ==> !IsSeparator(s[k])
  }

  predicate AllSeparators(s: string)
  {
    forall k :: 0 <= k < |s| ==> IsSeparator(s[k])
  }

  /** Removes the run of separators at the front of `s`. */
  function DropSeparators(s: string): (r: string)
    ensures |r| <= |s| && r == s[|s| - |r|..]
    ensures r == [] || !IsSeparator(r[0])
  {
    if s != [] && IsSeparator(s[0]) then DropSeparators(s[1..]) else s
  }

  /** What `DropSeparators` removes is made of separators only. */
  lemma {:induction false} DroppedAreSeparators(s: string)
    ensures forall k :: 0 <= k < |s| - |DropSeparators(s)| ==> IsSeparator(s[k])
  {
    if s != [] && IsSeparator(s[0]) {
      var t := s[1..];
      DroppedAreSeparators(t);
      assert DropSeparators(s) == DropSeparators(t);
      forall k | 1 <= k < |s| - |DropSeparators(s)|
        ensures IsSeparator(s[k])
      {
        assert s[k] == t[k - 1];
      }
    }
  }

  /** `s.replace(/[\.:]+/, "-")`: without the `g` flag only the leftmost,
      longest run of separators becomes a single dash. */
  function ReplaceFirstRun(s: string): (r: string)
    ensures |r| <= |s|
  {
    if s == [] then []
    else if IsSeparator(s[0]) then "-" + DropSeparators(s[1..])
    else [s[0]] + ReplaceFirstRun(s[1..])
  }

  /** A timestamp without separators is left unchanged. */
  lemma {:induction false} ReplaceFirstRunIdentity(s: string)
    requires NoSeparator(s)
    ensures ReplaceFirstRun(s) == s
  {
    if s != [] {
      assert !IsSeparator(s[0]) && NoSeparator(s[1..]);
      ReplaceFirstRunIdentity(s[1..]);
    }
  }

  lemma {:induction false} DropSeparatorsRun(run: string, rest: string)
    requires AllSeparators(run) && (rest == [] || !IsSeparator(rest[0]))
    ensures DropSeparators(run + rest) == rest
  {
    if run == [] {
      assert run + rest == rest;
    } else {
      var s := run + rest;
      assert s[0] == run[0] && s[1..] == run[1..] + rest;
      assert AllSeparators(run[1..]);
      DropSeparatorsRun(run[1..], rest);
    }
  }

  /** On a string that starts with its run, the run becomes one dash. */
  lemma ReplaceRunAtFront(run: string, rest: string)
    requires run != [] && AllSeparators(run)
    requires rest == [] || !IsSeparator(rest[0])
    ensures ReplaceFirstRun(run + rest) == "-" + rest
  {
    var s := run + rest;
    assert s[0] == run[0] && s[1..] == run[1..] + rest;
    assert IsSeparator(s[0]) && AllSeparators(run[1..]);
    DropSeparatorsRun(run[1..], rest);
    assert ReplaceFirstRun(s) == "-" + DropSeparators(s[1..]);
  }

  /** A leading non-separator is kept and the rewrite goes on with the rest. */
  lemma ReplaceKeepsHead(head: string, run: string, rest: string)
    requires NoSeparator(head) && head != []
    ensures NoSeparator(head[1..])
    ensures ReplaceFirstRun(head + run + rest) == [head[0]] + ReplaceFirstRun(head[1..] + run + rest)
    ensures head + "-" + rest == [head[0]] + (head[1..] + "-" + rest)
  {
    var s := head + run + rest;
    assert s[0] == head[0] && !IsSeparator(s[0]);
    assert s[1..] == head[1..] + run + rest;
  }

  /** The rewrite splits the timestamp at its first run of separators: what
      comes before the run is kept, the run becomes one dash, and everything
      after the run, later separators included, is kept. */
  lemma {:induction false} ReplaceFirstRunSplit(head: string, run: string, rest: string)
    requires NoSeparator(head) && run != [] && AllSeparators(run)
    requires rest == [] || !IsSeparator(rest[0])
    ensures ReplaceFirstRun(head + run + rest) == head + "-" + rest
  {
    if head == [] {
      assert head + run + rest == run + rest;
      ReplaceRunAtFront(run, rest);
    } else {
      ReplaceKeepsHead(head, run, rest);
      ReplaceFirstRunSplit(head[1..], run, rest);
    }
  }

  /** A single separator after a separator-free head is the run replaced. */
  lemma ReplaceSingleSeparator(head: string, c: char, rest: string)
    requires NoSeparator(head) && IsSeparator(c)
    requires rest == [] || !IsSeparator(rest[0])
    ensures ReplaceFirstRun(head + [c] + rest) == head + "-" + rest
  {
    ReplaceFirstRunSplit(head, [c], rest);
  }

  lemma NoSeparatorJoin(a: string, b: string)
    requires NoSeparator(a) && NoSeparator(b)
    ensures NoSeparator(a + b)
  {
    forall k | 0 <= k < |a + b| ensures !IsSeparator((a + b)[k]) {
      if k >= |a| { assert (a + b)[k] == b[k - |a|]; }
    }
  }

  /** For a `toISOString()` timestamp `dateThh:mm:ss.mssZ` only the colon
      between hours and minutes is replaced; the second colon and the dot
      before the milliseconds stay in the file name. */
  lemma IsoTimestampRewrite(date: string, hh: string, mm: string, ss: string, ms: string)
    requires NoSeparator(date) && NoSeparator(hh) && NoSeparator(mm)
    requires mm != []
    ensures ReplaceFirstRun((date + "T" + hh) + ":" + (mm + ":" + ss + "." + ms + "Z"))
         == (date + "T" + hh) + "-" + (mm + ":" + ss + "." + ms + "Z")
  {
    NoSeparatorJoin(date, "T");
    NoSeparatorJoin(date + "T", hh);
    var rest := mm + ":" + ss + "." + ms + "Z";
    assert rest[0] == mm[0];
    ReplaceSingleSeparator(date + "T" + hh, ':', rest);
  }

  /** The name `init` opens: prefix, rewritten timestamp, ".log". */
  function FileName(prefix: string, iso: string): (name: string)
    ensures |prefix| + 4 <= |name| <= |prefix| + |iso| + 4
    ensures name[..|prefix|] == prefix && name[|name| - 4..] == ".log"
  {
    prefix + ReplaceFirstRun(iso) + ".log"
  }

  // ---------------------------------------------------------------------
  // Log lines

  /** The number of line breaks in `s`. */
  function Newlines(s: string): nat
  {
    if s == [] then 0 else (if s[0] == '\n' then 1 else 0) + Newlines(s[1..])
  }

  lemma {:induction false} NewlinesAppend(a: string, b: string)
    ensures Newlines(a + b) == Newlines(a) + Newlines(b)
  {
    if a == [] {
      assert a + b == b;
    } else {
      var ab := a + b;
      assert ab != [] && ab[0] == a[0] && ab[1..] == a[1..] + b;
      NewlinesAppend(a[1..], b);
      assert Newlines(ab) == (if a[0] == '\n' then 1 else 0) + Newlines(a[1..] + b);
    }
  }

  lemma {:induction false} NewlinesNone(s: string)
    requires '\n' !in s
    ensures Newlines(s) == 0
  {
    if s != [] {
      NewlinesNone(s[1..]);
    }
  }

  /** The line `#write_to_handle` writes: `[iso] [TAG]: caller message\n`. */
  function FormatLine(iso: string, tag: string, caller: string, message: string): (line: string)
    ensures |line| > |iso| + 1
    ensures line[..|iso| + 1] == "[" + iso && line[|line| - 1] == '\n'
  {
    "[" + iso + "] [" + tag + "]: " + caller + " " + message + "\n"
  }

  /** When none of its parts holds a line break, the formatted line is exactly
      one line: it contains one line break, the last character. */
  lemma FormatLineIsOneLine(iso: string, tag: string, caller: string, message: string)
    requires '\n' !in iso && '\n' !in tag && '\n' !in caller && '\n' !in message
    ensures Newlines(FormatLine(iso, tag, caller, message)) == 1
  {
    var body := "[" + iso + "] [" + tag + "]: " + caller + " " + message;
    assert FormatLine(iso, tag, caller, message) == body + "\n";
    NewlinesNone(iso);
    NewlinesNone(tag);
    NewlinesNone(caller);
    NewlinesNone(message);
    NewlinesAppend("[", iso);
    NewlinesAppend("[" + iso, "] [");
    NewlinesAppend("[" + iso + "] [", tag);
    NewlinesAppend("[" + iso + "] [" + tag, "]: ");
    NewlinesAppend("[" + iso + "] [" + tag + "]: ", caller);
    NewlinesAppend("[" + iso + "] [" + tag + "]: " + caller, " ");
    NewlinesAppend("[" + iso + "] [" + tag + "]: " + caller + " ", message);
    NewlinesAppend(body, "\n");
  }

  // ---------------------------------------------------------------------
  // The rotation decision

  /** `#rolling_check`'s test: size or age has reached its threshold. Both
      comparisons are inclusive; the time threshold is in seconds while the
      clock and the birth time are in milliseconds. */
  predicate ShouldRoll(size: int, birthMs: int, nowMs: int, rc: RollingConfig): (roll: bool)
    ensures size >= rc.sizeThreshold ==> roll
    ensures nowMs - birthMs >= rc.timeThreshold * 1000 ==> roll
    ensures !roll ==> size < rc.sizeThreshold && nowMs - birthMs < rc.timeThreshold * 1000
  {
    size >= rc.sizeThreshold || nowMs - birthMs >= rc.timeThreshold * 1000
  }

  // ---------------------------------------------------------------------
  // The engine as a state machine

  /** What the collaborators answer during one `#log` call: the ISO time of
      the write, the caller description, the clock in milliseconds at the
      rotation check, and the ISO time and clock when a rotation reopens. */
  datatype CallEnv = CallEnv(dateIso: string, callerInfo: string, nowMs: int, reopenIso: string, reopenMs: int)

  /** How a `#log` call ended. `HandleMissing` and `RollingConfigMissing` are
      the TypeErrors thrown when `init` was never called, and when the config
      has no rolling config (the latter after the line has been written). */
  datatype LogOutcome = Filtered | Written | Rolled | HandleMissing | RollingConfigMissing

  /** The state a logger and its file system share: the name of the file the
      handle has open (none before `init`), the directory, the operations. */
  datatype World = World(handle: Option<string>, volume: Volume, ops: seq<FsOp>)
  {
    predicate Valid()
    {
      volume.WellFormed() && (handle.Some? ==> handle.value in volume.files)
    }
  }

  datatype Step = Step(outcome: LogOutcome, world: World)

  /** `init`: opens `FileName(prefix, iso)` for append and makes it current. */
  function InitStep(w: World, prefix: string, iso: string, nowMs: int): (r: World)
    requires w.volume.WellFormed()
    ensures r.Valid() && r.handle == Some(FileName(prefix, iso))
  {
    var name := FileName(prefix, iso);
    World(Some(name), OpenAppend(w.volume, name, nowMs), w.ops + [OpenFile(name)])
  }

  /** `#rolling_check`, run with the handle open. */
  function RollingCheckStep(w: World, cfg: Settings, env: CallEnv): (r: Step)
    requires w.Valid() && w.handle.Some?
    ensures r.world.Valid()
  {
    match cfg.rolling
    case None => Step(RollingConfigMissing, w)
    case Some(rc) =>
      var name := w.handle.value;
      var statted := w.(ops := w.ops + [StatFile(name)]);
      if ShouldRoll(|w.volume.files[name]|, w.volume.birthMs[name], env.nowMs, rc) then
        var closed := statted.(ops := statted.ops + [CloseFile(name)]);
        Step(Rolled, InitStep(closed, cfg.filePrefix, env.reopenIso, env.reopenMs))
      else
        Step(Written, statted)
  }

  /** `#log`: the level guard, the handle guard, the write, the rotation check. */
  function LogStep(w: World, cfg: Settings, levelName: LogLevel -> string, message: string, level: LogLevel, env: CallEnv): (r: Step)
    requires w.Valid()
    ensures r.world.Valid()
  {
    if level < cfg.level then Step(Filtered, w)
    else if w.handle.None? then Step(HandleMissing, w)
    else
      var name := w.handle.value;
      var line := FormatLine(env.dateIso, levelName(level), env.callerInfo, message);
      var written := World(w.handle, Append(w.volume, name, line), w.ops + [WriteFile(name, line)]);
      RollingCheckStep(written, cfg, env)
  }

  /** The number of operations of one kind in a trace. */
  function CountCloses(ops: seq<FsOp>): nat
  {
    if ops == [] then 0 else (if ops[0].CloseFile? then 1 else 0) + CountCloses(ops[1..])
  }

  function CountOpens(ops: seq<FsOp>): nat
  {
    if ops == [] then 0 else (if ops[0].OpenFile? then 1 else 0) + CountOpens(ops[1..])
  }

  // ---------------------------------------------------------------------
  // Properties of one `#log` call

  /** A message below the configured level returns at once: nothing is
      written, stat'ed or rotated, and the handle is not consulted (so even a
      logger that was never initialised does not throw). */
  lemma FilteredIsSilent(w: World, cfg: Settings, levelName: LogLevel -> string, message: string, level: LogLevel, env: CallEnv)
    requires w.Valid() && level < cfg.level
    ensures LogStep(w, cfg, levelName, message, level, env) == Step(Filtered, w)
  {
  }

  /** An accepted message before `init` throws and changes nothing. */
  lemma UninitialisedThrows(w: World, cfg: Settings, levelName: LogLevel -> string, message: string, level: LogLevel, env: CallEnv)
    requires w.Valid() && level >= cfg.level && w.handle.None?
    ensures LogStep(w, cfg, levelName, message, level, env) == Step(HandleMissing, w)
  {
  }

  /** An accepted message appends exactly its formatted line to the current
      file; every other existing file is untouched, and the only file that
      can appear is the empty one a rotation creates. This holds even when
      the rotation reopens the same name: "a+" keeps what was written. */
  lemma AcceptedAppendsOneLine(w: World, cfg: Settings, levelName: LogLevel -> string, message: string, level: LogLevel, env: CallEnv)
    requires w.Valid() && level >= cfg.level && w.handle.Some?
    ensures var r := LogStep(w, cfg, levelName, message, level, env);
            var name := w.handle.value;
            && r.outcome in {Written, Rolled, RollingConfigMissing}
            && name in r.world.volume.files
            && r.world.volume.files[name]
               == w.volume.files[name] + FormatLine(env.dateIso, levelName(level), env.callerInfo, message)
            && (forall f :: f in w.volume.files && f != name ==>
                  f in r.world.volume.files && r.world.volume.files[f] == w.volume.files[f])
            && (forall f :: f in r.world.volume.files && f !in w.volume.files ==>
                  r.outcome == Rolled && r.world.volume.files[f] == "")
  {
  }

  /** The write comes before anything else the call does, so the message that
      triggers a rotation lands in the old file; at most one close and one
      open follow, the close first, whatever the excess over the thresholds. */
  lemma {:induction false} WriteThenAtMostOneRotation(w: World, cfg: Settings, levelName: LogLevel -> string, message: string, level: LogLevel, env: CallEnv)
    requires w.Valid() && level >= cfg.level && w.handle.Some?
    ensures var r := LogStep(w, cfg, levelName, message, level, env);
            var name := w.handle.value;
            && |w.ops| < |r.world.ops| && r.world.ops[..|w.ops|] == w.ops
            && r.world.ops[|w.ops|] == WriteFile(name, FormatLine(env.dateIso, levelName(level), env.callerInfo, message))
            && CountCloses(r.world.ops[|w.ops|..]) == CountOpens(r.world.ops[|w.ops|..])
            && CountCloses(r.world.ops[|w.ops|..]) == (if r.outcome == Rolled then 1 else 0)
            && (r.outcome == Rolled ==>
                  r.world.ops[|r.world.ops| - 2] == CloseFile(name)
                  && r.world.ops[|r.world.ops| - 1] == OpenFile(FileName(cfg.filePrefix, env.reopenIso)))
  {
    var r := LogStep(w, cfg, levelName, message, level, env);
    var name := w.handle.value;
    var line := FormatLine(env.dateIso, levelName(level), env.callerInfo, message);
    var written := World(w.handle, Append(w.volume, name, line), w.ops + [WriteFile(name, line)]);
    assert r == RollingCheckStep(written, cfg, env);
    var checkOps := RollingCheckOps(written, cfg, env);
    assert r.world.ops == w.ops + [WriteFile(name, line)] + checkOps;
    var tail := [WriteFile(name, line)] + checkOps;
    assert r.world.ops[..|w.ops|] == w.ops && r.world.ops[|w.ops|..] == tail;
    assert tail[1..] == checkOps;
  }

  /** The operations a rotation check adds after the write: none without a
      rolling config, else a stat, followed by a close and an open exactly
      when it rolls. */
  lemma RollingCheckOps(w: World, cfg: Settings, env: CallEnv) returns (checkOps: seq<FsOp>)
    requires w.Valid() && w.handle.Some?
    ensures var r := RollingCheckStep(w, cfg, env);
            && r.world.ops == w.ops + checkOps
            && CountCloses(checkOps) == CountOpens(checkOps) == (if r.outcome == Rolled then 1 else 0)
            && (cfg.rolling.None? ==> checkOps == [])
            && (cfg.rolling.Some? && r.outcome != Rolled ==> checkOps == [StatFile(w.handle.value)])
            && (r.outcome == Rolled ==>
                  checkOps == [StatFile(w.handle.value), CloseFile(w.handle.value), OpenFile(FileName(cfg.filePrefix, env.reopenIso))])
  {
    var r := RollingCheckStep(w, cfg, env);
    var name := w.handle.value;
    if cfg.rolling.None? {
      checkOps := [];
    } else if r.outcome == Rolled {
      checkOps := [StatFile(name), CloseFile(name), OpenFile(FileName(cfg.filePrefix, env.reopenIso))];
      assert checkOps[1..] == [CloseFile(name), OpenFile(FileName(cfg.filePrefix, env.reopenIso))];
      assert checkOps[1..][1..] == [OpenFile(FileName(cfg.filePrefix, env.reopenIso))];
      assert checkOps[1..][1..][1..] == [];
      assert CountCloses(checkOps[1..][1..][1..]) == 0 && CountOpens(checkOps[1..][1..][1..]) == 0;
      assert CountCloses(checkOps[1..][1..]) == 0 && CountOpens(checkOps[1..][1..]) == 1;
      assert CountCloses(checkOps[1..]) == 1 && CountOpens(checkOps[1..]) == 1;
    } else {
      checkOps := [StatFile(name)];
      assert checkOps[1..] == [];
      assert CountCloses(checkOps) == 0 && CountOpens(checkOps) == 0;
    }
  }

  /** Rotation happens exactly when the size after the write or the age of
      the current file has reached its threshold; it then makes the file named
      from the prefix and the reopening time current. */
  lemma RollsIff(w: World, cfg: Settings, levelName: LogLevel -> string, message: string, level: LogLevel, env: CallEnv)
    requires w.Valid() && level >= cfg.level && w.handle.Some?
    ensures var r := LogStep(w, cfg, levelName, message, level, env);
            var name := w.handle.value;
            var line := FormatLine(env.dateIso, levelName(level), env.callerInfo, message);
            && (r.outcome == Rolled <==>
                  cfg.rolling.Some?
                  && ShouldRoll(|w.volume.files[name]| + |line|, w.volume.birthMs[name], env.nowMs, cfg.rolling.value))
            && r.world.handle == (if r.outcome == Rolled then Some(FileName(cfg.filePrefix, env.reopenIso)) else w.handle)
  {
  }

  /** With the default config (no rolling config) an accepted message is
      written, and then the rotation check throws. */
  lemma DefaultConfigThrowsAfterWrite(w: World, levelName: LogLevel -> string, message: string, level: LogLevel, env: CallEnv)
    requires w.Valid() && level >= Info && w.handle.Some?
    ensures var r := LogStep(w, Defaults, levelName, message, level, env);
            && r.outcome == RollingConfigMissing
            && r.world.ops == w.ops + [WriteFile(w.handle.value, FormatLine(env.dateIso, levelName(level), env.callerInfo, message))]
  {
  }

  /** `init` never loses data: a name that already exists (two `init`s in the
      same millisecond) is reopened with its contents and birth time kept. */
  lemma InitKeepsExistingFiles(w: World, prefix: string, iso: string, nowMs: int)
    requires w.volume.WellFormed()
    ensures var r := InitStep(w, prefix, iso, nowMs);
            && r.volume.files.Keys == w.volume.files.Keys + {FileName(prefix, iso)}
            && (forall f :: f in w.volume.files ==> r.volume.files[f] == w.volume.files[f] && r.volume.birthMs[f] == w.volume.birthMs[f])
            && (FileName(prefix, iso) !in w.volume.files ==> r.volume.files[FileName(prefix, iso)] == "")
  {
  }

  // ---------------------------------------------------------------------
  // The class

  /** Whether the argument of `new Logger(x)` is truthy, so that `x ||=`
      keeps it. */
  predicate ArgTruthy(arg: Arg): (t: bool)
    ensures arg.GivenConfig? ==> t
    ensures t && AssertConfig(arg) <==> arg.GivenConfig?
  {
    match arg
    case Omitted => false
    case Given(v) => Truthy(v)
    case GivenConfig(_) => true
  }

  class Logger {
    /** `#config`: the config object, shared with whoever built it. */
    const config: LogConfig
    /** The file system the handle lives in. */
    const disk: FileSystem
    /** `LogLevel.to_string`, which is not part of this model. */
    const levelName: LogLevel -> string
    /** `#log_file_handle`: the name of the file it has open. */
    var handle: Option<string>

    function State(): World
      reads this, disk
    {
      World(handle, disk.volume, disk.ops)
    }

    predicate Valid()
      reads this, disk
    {
      State().Valid()
    }

    constructor(config: LogConfig, disk: FileSystem, levelName: LogLevel -> string)
      ensures this.config == config && this.disk == disk && this.levelName == levelName
      ensures handle == None
      ensures disk.volume.WellFormed() ==> Valid()
    {
      this.config := config;
      this.disk := disk;
      this.levelName := levelName;
      handle := None;
    }

    /** `new Logger(x)`: a falsy or missing `x` is replaced by a fresh default
        config; otherwise `x` must be a `LogConfig`, else the constructor
        throws. The config object is kept by reference, not copied. */
    static method Create(arg: Arg, disk: FileSystem, levelName: LogLevel -> string) returns (r: Result<Logger, ConfigError>)
      ensures !ArgTruthy(arg) ==> r.Ok? && fresh(r.value.config) && r.value.config.Value() == Defaults
      ensures arg.GivenConfig? ==> r.Ok? && r.value.config == arg.config
      ensures arg.Given? && Truthy(arg.v) ==> r == Err(NotALogConfig)
      ensures r.Ok? ==> fresh(r.value) && r.value.disk == disk && r.value.levelName == levelName && r.value.handle == None
    {
      var chosen := arg;
      if !ArgTruthy(arg) {
        var defaults := LogConfig.WithDefaults();
        chosen := GivenConfig(defaults);
      }
      if !AssertConfig(chosen) {
        return Err(NotALogConfig);
      }
      var logger := new Logger(chosen.config, disk, levelName);
      return Ok(logger);
    }

    /** `Logger.with_defaults()`: a logger over a fresh default config. */
    static method WithDefaults(disk: FileSystem, levelName: LogLevel -> string) returns (logger: Logger)
      ensures fresh(logger) && fresh(logger.config) && logger.config.Value() == Defaults
      ensures logger.disk == disk && logger.levelName == levelName && logger.handle == None
    {
      var r := Create(Omitted, disk, levelName);
      logger := r.value;
    }

    /** `Logger.with_config(c)`: the same as `new Logger(c)`. */
    static method WithConfig(arg: Arg, disk: FileSystem, levelName: LogLevel -> string) returns (r: Result<Logger, ConfigError>)
      ensures arg.GivenConfig? ==> r.Ok? && fresh(r.value) && r.value.config == arg.config && r.value.handle == None
      ensures arg.Given? && Truthy(arg.v) ==> r == Err(NotALogConfig)
      ensures !ArgTruthy(arg) ==> r.Ok? && fresh(r.value.config) && r.value.config.Value() == Defaults
      ensures r.Ok? ==> fresh(r.value) && r.value.disk == disk && r.value.levelName == levelName && r.value.handle == None
    {
      r := Create(arg, disk, levelName);
    }

    /** The `level` getter. */
    function Level(): (level: LogLevel)
      reads this, config
      ensures level == config.Value().level
    {
      config.level
    }

    /** The `file_prefix` getter. */
    function FilePrefix(): (prefix: string)
      reads this, config
      ensures prefix == config.Value().filePrefix
    {
      config.filePrefix
    }

    /** The `time_threshold` getter; `None` is the TypeError thrown when the
        config has no rolling config. */
    function TimeThreshold(): (t: Option<int>)
      reads this, config
      ensures t.Some? <==> config.Value().rolling.Some?
      ensures t.Some? ==> t.value == config.Value().rolling.value.timeThreshold
    {
      match config.rollingConfig
      case None => None
      case Some(rc) => Some(rc.timeThreshold)
    }

    /** The `size_threshold` getter, likewise. */
    function SizeThreshold(): (t: Option<int>)
      reads this, config
      ensures t.Some? <==> config.Value().rolling.Some?
      ensures t.Some? ==> t.value == config.Value().rolling.value.sizeThreshold
    {
      match config.rollingConfig
      case None => None
      case Some(rc) => Some(rc.sizeThreshold)
    }

    /** `init`: opens the file named from the prefix and `iso` for append and
        makes it the current one. A previous handle is replaced, not closed. */
    method Init(iso: string, nowMs: int)
      requires disk.volume.WellFormed()
      modifies this, disk
      ensures Valid()
      ensures State() == InitStep(old(State()), config.filePrefix, iso, nowMs)
    {
      var name := config.filePrefix + ReplaceFirstRun(iso) + ".log";
      disk.Open(name, nowMs);
      handle := Some(name);
    }

    /** `#write_to_handle`. */
    method WriteToHandle(message: string, level: LogLevel, dateIso: string, callerInfo: string)
      requires Valid() && handle.Some?
      modifies disk
      ensures Valid()
      ensures var line := FormatLine(dateIso, levelName(level), callerInfo, message);
              State() == old(State()).(volume := Append(old(disk.volume), handle.value, line),
                                       ops := old(disk.ops) + [WriteFile(handle.value, line)])
    {
      var line := "[" + dateIso + "] [" + levelName(level) + "]: " + callerInfo + " " + message + "\n";
      disk.Write(handle.value, line);
    }

    /** `#rolling_check`. */
    method RollingCheck(env: CallEnv) returns (outcome: LogOutcome)
      requires Valid() && handle.Some?
      modifies this, disk
      ensures Valid()
      ensures Step(outcome, State()) == RollingCheckStep(old(State()), config.Value(), env)
    {
      if config.rollingConfig.None? {
        return RollingConfigMissing;
      }
      var rc := config.rollingConfig.value;
      var name := handle.value;
      var size, birthMs := disk.Stat(name);
      if size >= rc.sizeThreshold || env.nowMs - birthMs >= rc.timeThreshold * 1000 {
        disk.Close(name);
        Init(env.reopenIso, env.reopenMs);
        return Rolled;
      }
      return Written;
    }

    /** `#log`. */
    method Log(message: string, level: LogLevel, env: CallEnv) returns (outcome: LogOutcome)
      requires Valid()
      modifies this, disk
      ensures Valid()
      ensures Step(outcome, State()) == LogStep(old(State()), config.Value(), levelName, message, level, env)
    {
      if level < config.level {
        return Filtered;
      }
      if handle.None? {
        return HandleMissing;
      }
      WriteToHandle(message, level, env.dateIso, env.callerInfo);
      outcome := RollingCheck(env);
    }

    /** The five level methods: `#log` at a fixed level. The source does not
        await it, so `outcome` is how the discarded promise settles. */
    method Debug(message: string, env: CallEnv) returns (outcome: LogOutcome)
      requires Valid()
      modifies this, disk
      ensures Valid()
      ensures Step(outcome, State()) == LogStep(old(State()), config.Value(), levelName, message, LogLevels.Debug, env)
    {
      outcome := Log(message, LogLevels.Debug, env);
    }

    method Info(message: string, env: CallEnv) returns (outcome: LogOutcome)
      requires Valid()
      modifies this, disk
      ensures Valid()
      ensures Step(outcome, State()) == LogStep(old(State()), config.Value(), levelName, message, LogLevels.Info, env)
    {
      outcome := Log(message, LogLevels.Info, env);
    }

    method Warn(message: string, env: CallEnv) returns (outcome: LogOutcome)
      requires Valid()
      modifies this, disk
      ensures Valid()
      ensures Step(outcome, State()) == LogStep(old(State()), config.Value(), levelName, message, LogLevels.Warn, env)
    {
      outcome := Log(message, LogLevels.Warn, env);
    }

    method Error(message: string, env: CallEnv) returns (outcome: LogOutcome)
      requires Valid()
      modifies this, disk
      ensures Valid()
      ensures Step(outcome, State()) == LogStep(old(State()), config.Value(), levelName, message, LogLevels.Error, env)
    {
      outcome := Log(message, LogLevels.Error, env);
    }

    method Critical(message: string, env: CallEnv) returns (outcome: LogOutcome)
      requires Valid()
      modifies this, disk
      ensures Valid()
      ensures Step(outcome, State()) == LogStep(old(State()), config.Value(), levelName, message, LogLevels.Critical, env)
    {
      outcome := Log(message, LogLevels.Critical, env);
    }
  }
}
