/** The plugin's settings: the pre-validation hook that fills in the font path
    and the default schedule time, the field defaults of the settings record,
    and the names of the mask image files. */
module PluginConfig {
  import opened Wrappers
  import opened Civil

  /** A Python `datetime.time`; `tz` is `None` for a naive time. */
  datatype TimeOfDay = TimeOfDay(hour: int, minute: int, second: int, microsecond: int,
                                 tz: Option<TzInfo>)

  /** A raw setting as the driver hands it over (`values` of the validator). */
  datatype Value =
    | NoneValue
    | Str(s: string)
    | Int(n: int)
    | StrList(items: seq<string>)
    | Dict(entries: map<string, Value>)
    | Time(t: TimeOfDay)

  /** Python truthiness of a raw setting. */
  predicate Truthy(v: Value) {
    match v
    case NoneValue => false
    case Str(s) => s != []
    case Int(n) => n != 0
    case StrList(xs) => xs != []
    case Dict(m) => m != map[]
    case Time(_) => true
  }

  /** `values.get(key)`: a missing key reads as `None`. */
  function Get(values: map<string, Value>, key: string): Value {
    if key in values then values[key] else NoneValue
  }

  const FontPathKey := "wordcloud_font_path"
  const ScheduleTimeKey := "wordcloud_default_schedule_time"
  const TimezoneKey := "wordcloud_timezone"

  const FontFileName := "SourceHanSans.otf"
  /** `time(22, 0, 0)` */
  const EveningTen := TimeOfDay(22, 0, 0, 0, None)

  /** Why building the settings raises. */
  datatype ConfigError =
    | InvalidIsoTime(literal: string)      // `time.fromisoformat` raises ValueError
    | NotAString(key: string)              // a non-string where a string is parsed
    | UnknownZone(name: string)            // `ZoneInfo(name)` finds no such zone
    | InvalidField(key: string)            // a field of the wrong type

  /** The font path after the hook: a falsy value becomes the font bundled
      next to the module. */
  function FontPath(values: map<string, Value>, moduleDir: string): (v: Value)
    ensures Truthy(Get(values, FontPathKey)) ==> v == Get(values, FontPathKey)
    ensures !Truthy(Get(values, FontPathKey)) ==> v == Str(moduleDir + "/" + FontFileName)
  {
    if Truthy(Get(values, FontPathKey)) then Get(values, FontPathKey)
    else Str(moduleDir + "/" + FontFileName)
  }

  /** The schedule time before its zone is attached: parsed when given,
      22:00:00 otherwise. */
  function BaseScheduleTime(v: Value, fromIsoFormat: string -> Option<TimeOfDay>): (r: Result<TimeOfDay, ConfigError>)
    ensures !Truthy(v) ==> r == Success(EveningTen)
    ensures v.Str? && v.s != [] ==>
      (r.Success? <==> fromIsoFormat(v.s).Some?) && (r.Success? ==> r.value == fromIsoFormat(v.s).value)
    ensures Truthy(v) && !v.Str? ==> r == Failure(NotAString(ScheduleTimeKey))
  {
    if !Truthy(v) then Success(EveningTen)
    else match v
      case Str(s) => (match fromIsoFormat(s)
                      case Some(t) => Success(t)
                      case None => Failure(InvalidIsoTime(s)))
      case _ => Failure(NotAString(ScheduleTimeKey))
  }

  /** The zone attached to the schedule time: the configured zone when one is
      set, the host's local zone otherwise. */
  function ScheduleZone(v: Value, zoneExists: string -> bool, localZone: TzInfo): (r: Result<TzInfo, ConfigError>)
    ensures !Truthy(v) ==> r == Success(localZone)
    ensures v.Str? && v.s != [] ==>
      r == if zoneExists(v.s) then Success(ZoneKey(v.s)) else Failure(UnknownZone(v.s))
    ensures Truthy(v) && !v.Str? ==> r == Failure(NotAString(TimezoneKey))
  {
    if !Truthy(v) then Success(localZone)
    else match v
      case Str(z) => if zoneExists(z) then Success(ZoneKey(z)) else Failure(UnknownZone(z))
      case _ => Failure(NotAString(TimezoneKey))
  }

  /** The root validator: writes the font path and the zoned schedule time
      back into `values`. `fromIsoFormat`, `zoneExists` and `localZone` stand
      for `time.fromisoformat`, the zone database and the host's zone. */
  function SetDefaultValues(values: map<string, Value>, moduleDir: string,
                            fromIsoFormat: string -> Option<TimeOfDay>,
                            zoneExists: string -> bool, localZone: TzInfo): (r: Result<map<string, Value>, ConfigError>)
    ensures r.Success? <==>
      BaseScheduleTime(Get(values, ScheduleTimeKey), fromIsoFormat).Success? &&
      ScheduleZone(Get(values, TimezoneKey), zoneExists, localZone).Success?
    ensures r.Success? ==>
      && r.value.Keys == values.Keys + {FontPathKey, ScheduleTimeKey}
      && r.value[FontPathKey] == FontPath(values, moduleDir)
      && r.value[ScheduleTimeKey].Time?
      // the clock fields survive, only the zone is replaced, and it is always set
      && (var base := BaseScheduleTime(Get(values, ScheduleTimeKey), fromIsoFormat).value;
          r.value[ScheduleTimeKey].t ==
            base.(tz := Some(ScheduleZone(Get(values, TimezoneKey), zoneExists, localZone).value)))
      && (forall k :: k in values && k != FontPathKey && k != ScheduleTimeKey ==> r.value[k] == values[k])
  {
    var withFont := values[FontPathKey := FontPath(values, moduleDir)];
    assert Get(withFont, ScheduleTimeKey) == Get(values, ScheduleTimeKey);
    assert Get(withFont, TimezoneKey) == Get(values, TimezoneKey);
    var base :- BaseScheduleTime(Get(withFont, ScheduleTimeKey), fromIsoFormat);
    var zone :- ScheduleZone(Get(withFont, TimezoneKey), zoneExists, localZone);
    Success(withFont[ScheduleTimeKey := Time(base.(tz := Some(zone)))])
  }

  /** `wordcloud_colormap`: one colormap name or a list to choose from. */
  datatype Colormap = Named(name: string) | Choices(names: seq<string>)

  /** The validated settings record. */
  datatype Config = Config(
    width: int,
    height: int,
    backgroundColor: string,
    colormap: Colormap,
    fontPath: string,
    stopwordsPath: Option<string>,
    userdictPath: Option<string>,
    timezone: Option<string>,
    defaultScheduleTime: TimeOfDay,
    options: map<string, Value>,
    excludeUserIds: set<string>)

  const DefaultWidth := 1920
  const DefaultHeight := 1200
  const DefaultBackground := "black"
  const DefaultColormap := Named("viridis")

  function IntField(values: map<string, Value>, key: string, default: int): Result<int, ConfigError> {
    if key !in values then Success(default)
    else match values[key]
      case Int(n) => Success(n)
      case _ => Failure(InvalidField(key))
  }

  function StrField(values: map<string, Value>, key: string, default: Option<string>): Result<string, ConfigError> {
    if key !in values then
      (match default case Some(s) => Success(s) case None => Failure(InvalidField(key)))
    else match values[key]
      case Str(s) => Success(s)
      case _ => Failure(InvalidField(key))
  }

  function OptionalStrField(values: map<string, Value>, key: string): Result<Option<string>, ConfigError> {
    if key !in values then Success(None)
    else match values[key]
      case NoneValue => Success(None)
      case Str(s) => Success(Some(s))
      case _ => Failure(InvalidField(key))
  }

  function ColormapField(values: map<string, Value>): Result<Colormap, ConfigError> {
    if "wordcloud_colormap" !in values then Success(DefaultColormap)
    else match values["wordcloud_colormap"]
      case Str(s) => Success(Named(s))
      case StrList(xs) => Success(Choices(xs))
      case _ => Failure(InvalidField("wordcloud_colormap"))
  }

  function TimeField(values: map<string, Value>): Result<TimeOfDay, ConfigError> {
    if ScheduleTimeKey in values && values[ScheduleTimeKey].Time? then Success(values[ScheduleTimeKey].t)
    else Failure(InvalidField(ScheduleTimeKey))
  }

  function OptionsField(values: map<string, Value>): Result<map<string, Value>, ConfigError> {
    if "wordcloud_options" !in values then Success(map[])
    else match values["wordcloud_options"]
      case Dict(m) => Success(m)
      case _ => Failure(InvalidField("wordcloud_options"))
  }

  function ExcludeField(values: map<string, Value>): Result<set<string>, ConfigError> {
    if "wordcloud_exclude_user_ids" !in values then Success({})
    else match values["wordcloud_exclude_user_ids"]
      case StrList(xs) => Success(set x | x in xs)
      case _ => Failure(InvalidField("wordcloud_exclude_user_ids"))
  }

  /** `Config.parse_obj(values)`: the validator first, then each field read
      with its declared default. */
  function ParseConfig(values: map<string, Value>, moduleDir: string,
                       fromIsoFormat: string -> Option<TimeOfDay>,
                       zoneExists: string -> bool, localZone: TzInfo): Result<Config, ConfigError>
  {
    var v :- SetDefaultValues(values, moduleDir, fromIsoFormat, zoneExists, localZone);
    var width :- IntField(v, "wordcloud_width", DefaultWidth);
    var height :- IntField(v, "wordcloud_height", DefaultHeight);
    var background :- StrField(v, "wordcloud_background_color", Some(DefaultBackground));
    var colormap :- ColormapField(v);
    var font :- StrField(v, FontPathKey, None);
    var stopwords :- OptionalStrField(v, "wordcloud_stopwords_path");
    var userdict :- OptionalStrField(v, "wordcloud_userdict_path");
    var timezone :- OptionalStrField(v, TimezoneKey);
    var time :- TimeField(v);
    var options :- OptionsField(v);
    var exclude :- ExcludeField(v);
    Success(Config(width, height, background, colormap, font, stopwords, userdict,
                   timezone, time, options, exclude))
  }

  /** With nothing configured, every field takes its declared default, the
      font is the bundled one and the schedule time is 22:00:00 in the host's
      zone. */
  lemma EmptySettings(moduleDir: string, fromIsoFormat: string -> Option<TimeOfDay>,
                      zoneExists: string -> bool, localZone: TzInfo)
    ensures ParseConfig(map[], moduleDir, fromIsoFormat, zoneExists, localZone) ==
      Success(Config(1920, 1200, "black", Named("viridis"),
                     moduleDir + "/SourceHanSans.otf", None, None, None,
                     TimeOfDay(22, 0, 0, 0, Some(localZone)), map[], {}))
  {
    EmptyDefaults(moduleDir, fromIsoFormat, zoneExists, localZone);
  }

  /** The validator on empty settings adds exactly the bundled font and 22:00:00
      in the host's zone. */
  lemma EmptyDefaults(moduleDir: string, fromIsoFormat: string -> Option<TimeOfDay>,
                      zoneExists: string -> bool, localZone: TzInfo)
    ensures SetDefaultValues(map[], moduleDir, fromIsoFormat, zoneExists, localZone) ==
      Success(map[FontPathKey := Str(moduleDir + "/SourceHanSans.otf"),
                  ScheduleTimeKey := Time(TimeOfDay(22, 0, 0, 0, Some(localZone)))])
  {
    assert moduleDir + "/" + FontFileName == moduleDir + "/SourceHanSans.otf";
  }

  /** A configured zone wins over an offset carried by the literal, and the
      clock fields are the literal's. */
  lemma ZoneReplacedNotConverted(values: map<string, Value>, moduleDir: string,
                                 fromIsoFormat: string -> Option<TimeOfDay>,
                                 zoneExists: string -> bool, localZone: TzInfo,
                                 literal: string, zone: string)
    requires Get(values, ScheduleTimeKey) == Str(literal) && literal != [] && fromIsoFormat(literal).Some?
    requires Get(values, TimezoneKey) == Str(zone) && zone != [] && zoneExists(zone)
    ensures var r := SetDefaultValues(values, moduleDir, fromIsoFormat, zoneExists, localZone);
      && r.Success?
      && var t := fromIsoFormat(literal).value;
         r.value[ScheduleTimeKey] == Time(TimeOfDay(t.hour, t.minute, t.second, t.microsecond, Some(ZoneKey(zone))))
  {
  }

  /** The file name of a mask: the default one, or the one for `key`. */
  function MaskPath(dataDir: string, key: Option<string>): string {
    match key
    case None => dataDir + "/mask.png"
    case Some(k) => dataDir + "/mask-" + k + ".png"
  }

  /** Different keys name different files, and no key names the default file. */
  lemma MaskPathInjective(dataDir: string, a: string, b: string)
    ensures MaskPath(dataDir, Some(a)) == MaskPath(dataDir, Some(b)) ==> a == b
    ensures MaskPath(dataDir, Some(a)) != MaskPath(dataDir, None)
  {
    var pa, pb := MaskPath(dataDir, Some(a)), MaskPath(dataDir, Some(b));
    var n := |dataDir| + 6;
    if pa == pb {
      assert |a| == |b|;
      assert a == pa[n..n + |a|];
      assert b == pb[n..n + |b|];
    }
    assert |pa| > |MaskPath(dataDir, None)|;
  }
}
