/** `LogConfig`: the logger's configuration, built in place by validating
    `with_*` mutators or folded from the keys of a parsed JSON object. */
module Config {
  import opened JsValues
  import opened LogLevels

  /** The thresholds of a rolling configuration, taken as they come: their
      validation belongs to `RollingConfig`, which is not part of this model. */
  datatype RollingConfig = RollingConfig(sizeThreshold: int, timeThreshold: int)

  /** `RollingConfig.from_json`: `None` when it throws. */
  type RollingParser = JsValue -> Option<RollingConfig>

  /** Why a mutator or `LogConfig.assert` threw. */
  datatype ConfigError =
    | InvalidLevel(level: JsValue)
    | InvalidPrefix(prefix: JsValue)
    | InvalidRollingConfig(rolling: JsValue)
    | NotALogConfig

  /** The value held by a `LogConfig` object: `#level`, `#rolling_config`
      (absent until set) and `#file_prefix`. */
  datatype Settings = Settings(level: LogLevel, rolling: Option<RollingConfig>, filePrefix: string)

  const DefaultPrefix: string := "Logtar_"

  /** The field initialisers of a fresh `LogConfig`. */
  const Defaults: Settings := Settings(Info, None, DefaultPrefix)

  /** The keys `from_json` dispatches on. */
  predicate Recognized(key: string)
  {
    key == "level" || key == "rolling_config" || key == "file_prefix"
  }

  /** One step of `from_json`: the `with_*` call chosen by the key, or nothing
      for a key it does not recognise. */
  function ApplyEntry(s: Settings, key: string, v: JsValue, parseRolling: RollingParser): (r: Result<Settings, ConfigError>)
    ensures !Recognized(key) ==> r == Ok(s)
    ensures r.Ok? && key != "level" ==> r.value.level == s.level
    ensures r.Ok? && key != "rolling_config" ==> r.value.rolling == s.rolling
    ensures r.Ok? && key != "file_prefix" ==> r.value.filePrefix == s.filePrefix
    ensures r.Ok? <==> ((key == "level" ==> AssertLevel(v))
                        && (key == "rolling_config" ==> parseRolling(v).Some?)
                        && (key == "file_prefix" ==> v.JString?))
    ensures r.Err? && key == "level" ==> r.error == InvalidLevel(v)
    ensures r.Err? && key == "rolling_config" ==> r.error == InvalidRollingConfig(v)
    ensures r.Err? && key == "file_prefix" ==> r.error == InvalidPrefix(v)
  {
    if key == "level" then
      if AssertLevel(v) then Ok(s.(level := v.n)) else Err(InvalidLevel(v))
    else if key == "rolling_config" then
      match parseRolling(v)
      case Some(rc) => Ok(s.(rolling := Some(rc)))
      case None => Err(InvalidRollingConfig(v))
    else if key == "file_prefix" then
      if v.JString? then Ok(s.(filePrefix := v.s)) else Err(InvalidPrefix(v))
    else
      Ok(s)
  }

  /** `from_json` over the entries of the object: start from the defaults and
      apply every entry in order; the first throw ends the walk. */
  function FromJsonSpec(entries: seq<(string, JsValue)>, parseRolling: RollingParser): (r: Result<Settings, ConfigError>)
    ensures r.Err? ==> !r.error.NotALogConfig?
  {
    if entries == [] then Ok(Defaults)
    else
      var before := FromJsonSpec(entries[..|entries| - 1], parseRolling);
      var last := entries[|entries| - 1];
      if before.Err? then before else ApplyEntry(before.value, last.0, last.1, parseRolling)
  }

  /** Whether an entry passes its validator (an unrecognised key always does). */
  predicate EntryValid(entry: (string, JsValue), parseRolling: RollingParser)
  {
    ApplyEntry(Defaults, entry.0, entry.1, parseRolling).Ok?
  }

  /** The value of the last entry with this key, if any. */
  function Lookup(entries: seq<(string, JsValue)>, key: string): Option<JsValue>
  {
    if entries == [] then None
    else if entries[|entries| - 1].0 == key then Some(entries[|entries| - 1].1)
    else Lookup(entries[..|entries| - 1], key)
  }

  /** What the getters should return after `from_json`: the supplied value for
      each recognised key, the default for each absent one. */
  function Expected(entries: seq<(string, JsValue)>, parseRolling: RollingParser): Settings
  {
    var level := Lookup(entries, "level");
    var rolling := Lookup(entries, "rolling_config");
    var prefix := Lookup(entries, "file_prefix");
    Settings(
      if level.Some? && AssertLevel(level.value) then level.value.n else Defaults.level,
      if rolling.Some? then parseRolling(rolling.value) else Defaults.rolling,
      if prefix.Some? && prefix.value.JString? then prefix.value.s else Defaults.filePrefix)
  }

  /** The entries `from_json` acts on, in their order. */
  function RecognizedEntries(entries: seq<(string, JsValue)>): (r: seq<(string, JsValue)>)
    ensures forall k :: 0 <= k < |r| ==> Recognized(r[k].0)
    ensures |r| <= |entries|
  {
    if entries == [] then []
    else
      var init := RecognizedEntries(entries[..|entries| - 1]);
      if Recognized(entries[|entries| - 1].0) then init + [entries[|entries| - 1]] else init
  }

  /** Once a prefix of the entries has thrown, the whole walk throws the same error. */
  lemma {:induction false} ErrorIsFinal(entries: seq<(string, JsValue)>, i: nat, parseRolling: RollingParser)
    requires i <= |entries|
    requires FromJsonSpec(entries[..i], parseRolling).Err?
    ensures FromJsonSpec(entries, parseRolling) == FromJsonSpec(entries[..i], parseRolling)
  {
    if i < |entries| {
      var init := entries[..|entries| - 1];
      assert init[..i] == entries[..i];
      ErrorIsFinal(init, i, parseRolling);
    } else {
      assert entries[..i] == entries;
    }
  }

  /** `from_json` returns a config exactly when every recognised key carries a
      value its validator accepts. */
  lemma {:induction false} FromJsonOkIff(entries: seq<(string, JsValue)>, parseRolling: RollingParser)
    ensures FromJsonSpec(entries, parseRolling).Ok?
        <==> forall k :: 0 <= k < |entries| ==> EntryValid(entries[k], parseRolling)
  {
    if entries != [] {
      var init := entries[..|entries| - 1];
      FromJsonOkIff(init, parseRolling);
      assert forall k :: 0 <= k < |init| ==> init[k] == entries[k];
      var before := FromJsonSpec(init, parseRolling);
      if before.Ok? {
        var last := entries[|entries| - 1];
        assert ApplyEntry(before.value, last.0, last.1, parseRolling).Ok?
           <==> ApplyEntry(Defaults, last.0, last.1, parseRolling).Ok?;
      }
    }
  }

  /** After a successful `from_json`, the config holds the last value given for
      each recognised key and the default for each absent key. */
  lemma {:induction false} FromJsonValues(entries: seq<(string, JsValue)>, parseRolling: RollingParser)
    requires FromJsonSpec(entries, parseRolling).Ok?
    ensures FromJsonSpec(entries, parseRolling).value == Expected(entries, parseRolling)
  {
    if entries != [] {
      var init := entries[..|entries| - 1];
      FromJsonValues(init, parseRolling);
    }
  }

  /** Keys other than `level`, `rolling_config` and `file_prefix` have no effect. */
  lemma {:induction false} UnknownKeysIgnored(entries: seq<(string, JsValue)>, parseRolling: RollingParser)
    ensures FromJsonSpec(entries, parseRolling) == FromJsonSpec(RecognizedEntries(entries), parseRolling)
  {
    if entries != [] {
      var init := entries[..|entries| - 1];
      var last := entries[|entries| - 1];
      UnknownKeysIgnored(init, parseRolling);
      if Recognized(last.0) {
        var r := RecognizedEntries(init) + [last];
        assert r[..|r| - 1] == RecognizedEntries(init);
      }
    }
  }

  /** A JSON object holding a valid level and a string prefix (and possibly
      other keys) gives back exactly those values, with no rolling config. */
  lemma FromJsonRoundTrip(level: LogLevel, prefix: string, extra: string, v: JsValue, parseRolling: RollingParser)
    requires !Recognized(extra)
    ensures FromJsonSpec([("level", JNumber(level)), (extra, v), ("file_prefix", JString(prefix))], parseRolling)
         == Ok(Settings(level, None, prefix))
  {
    var e := [("level", JNumber(level)), (extra, v), ("file_prefix", JString(prefix))];
    assert e[..2][..1][..0] == [];
    assert FromJsonSpec(e[..2][..1], parseRolling) == Ok(Settings(level, None, DefaultPrefix));
    assert FromJsonSpec(e[..2], parseRolling) == Ok(Settings(level, None, DefaultPrefix));
  }

  /** The argument of `LogConfig.assert`: no argument at all, a plain value
      (an explicit `undefined` included), or a `LogConfig` instance. */
  datatype Arg = Omitted | Given(v: JsValue) | GivenConfig(config: LogConfig)

  /** `LogConfig.assert`: passes (true) or throws (false). The check passes
      for no argument or a `LogConfig` and for nothing else; every plain
      value, an explicit `undefined` included, throws. */
  predicate AssertConfig(arg: Arg): (ok: bool)
    ensures ok <==> arg.Omitted? || arg.GivenConfig?
  {
    !(!arg.Omitted? && !arg.GivenConfig?)
  }

  class LogConfig {
    var level: LogLevel
    var rollingConfig: Option<RollingConfig>
    var filePrefix: string

    /** The value of this config, as the three getters show it. */
    function Value(): Settings
      reads this
    {
      Settings(level, rollingConfig, filePrefix)
    }

    /** `new LogConfig()`: level Info, prefix "Logtar_", no rolling config. */
    constructor()
      ensures Value() == Defaults
    {
      level := Info;
      rollingConfig := None;
      filePrefix := DefaultPrefix;
    }

    /** `LogConfig.with_defaults()`: a fresh config holding the defaults. */
    static method WithDefaults() returns (c: LogConfig)
      ensures fresh(c) && c.Value() == Defaults
    {
      c := new LogConfig();
    }

    /** `with_log_level`: on one of the five levels, sets it and returns this
        same object; otherwise throws and leaves the config as it was. */
    method WithLogLevel(v: JsValue) returns (r: Result<LogConfig, ConfigError>)
      modifies this
      ensures AssertLevel(v) ==> r == Ok(this) && Value() == old(Value()).(level := v.n)
      ensures !AssertLevel(v) ==> r == Err(InvalidLevel(v)) && Value() == old(Value())
    {
      if !AssertLevel(v) {
        return Err(InvalidLevel(v));
      }
      level := v.n;
      return Ok(this);
    }

    /** `with_rolling_config`: stores what `RollingConfig.from_json` builds and
        returns this object; a throw from it leaves the config as it was. */
    method WithRollingConfig(v: JsValue, parseRolling: RollingParser) returns (r: Result<LogConfig, ConfigError>)
      modifies this
      ensures parseRolling(v).Some? ==> r == Ok(this) && Value() == old(Value()).(rolling := parseRolling(v))
      ensures parseRolling(v).None? ==> r == Err(InvalidRollingConfig(v)) && Value() == old(Value())
    {
      var parsed := parseRolling(v);
      if parsed.None? {
        return Err(InvalidRollingConfig(v));
      }
      rollingConfig := parsed;
      return Ok(this);
    }

    /** `with_file_prefix`: any string, the empty one included, is stored and
        this object returned; any other value throws and changes nothing. */
    method WithFilePrefix(v: JsValue) returns (r: Result<LogConfig, ConfigError>)
      modifies this
      ensures v.JString? ==> r == Ok(this) && Value() == old(Value()).(filePrefix := v.s)
      ensures !v.JString? ==> r == Err(InvalidPrefix(v)) && Value() == old(Value())
    {
      if !v.JString? {
        return Err(InvalidPrefix(v));
      }
      filePrefix := v.s;
      return Ok(this);
    }

    /** `LogConfig.from_json`: walks the keys of the object, dispatching the
        recognised ones to the mutators of a fresh config. */
    static method FromJson(entries: seq<(string, JsValue)>, parseRolling: RollingParser)
      returns (r: Result<LogConfig, ConfigError>)
      ensures r.Ok? <==> FromJsonSpec(entries, parseRolling).Ok?
      ensures r.Ok? ==> fresh(r.value) && r.value.Value() == FromJsonSpec(entries, parseRolling).value
      ensures r.Err? ==> r.error == FromJsonSpec(entries, parseRolling).error
    {
      var config := new LogConfig();
      var i := 0;
      while i < |entries|
        invariant 0 <= i <= |entries|
        invariant fresh(config)
        invariant FromJsonSpec(entries[..i], parseRolling) == Ok(config.Value())
      {
        var key, v := entries[i].0, entries[i].1;
        assert entries[..i + 1][..i] == entries[..i];
        var step: Result<LogConfig, ConfigError> := Ok(config);
        if key == "level" {
          step := config.WithLogLevel(v);
        } else if key == "rolling_config" {
          step := config.WithRollingConfig(v, parseRolling);
        } else if key == "file_prefix" {
          step := config.WithFilePrefix(v);
        }
        if step.Err? {
          ErrorIsFinal(entries, i + 1, parseRolling);
          return Err(step.error);
        }
        config := step.value;
        i := i + 1;
      }
      assert entries[..i] == entries;
      return Ok(config);
    }
  }
}
