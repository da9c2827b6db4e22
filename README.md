# nonebot-plugin-wordcloud in Dafny

This project models the core of nonebot-plugin-wordcloud and proves properties of the model. The plugin answers chat commands with a word-cloud image of a group's messages. It also sends one every day at configured times. The model covers:

- **Time ranges.** The command handler turns an alias such as 今日词云 or 我的历史词云 into a time range to query. For the 历史 command it splits the argument on `~`, exactly as the regular expression `^(.+?)(?:~(.+))?$` does. The calendar arithmetic is proleptic Gregorian, including the `OverflowError` Python raises outside the years 1 to 9999.
- **Word frequencies.** Command messages are dropped first. The configured message processors run next. Then the words are counted against the stopword set.
- **Rendering options.** The user's renderer options are merged with the defaults: font, size, background, colormap (one name, or a random choice from a list) and mask. Rendering can fail with a `ValueError`.
- **The older renderer.** It joins the messages with spaces, strips and counts the tokens, and logs the `ValueError`.
- **Settings.** The settings hook fills in the font path and the zoned default schedule time. The settings record gets its declared defaults.
- **Daily sending.** A registry maps time of day to cron job. `refresh` rebuilds it from the stored schedules. The scheduled task queries and sends the images.
- **The data migration.** It maps the per-platform id columns of the schedule table to a structured `target` and back, including Python's `int(str)` and `str(int)`.

The files follow the package:

| file | module |
|---|---|
| `wrappers.dfy` | `Option` and `Result` |
| `text.dfy` | `str.isspace`, `strip`, `startswith`, `join` |
| `civil.dfy` | `datetime` values and day arithmetic |
| `time_range.dfy` | `handle_first_receive` |
| `time_range_facts.dfy` | what the ranges are |
| `counting.dfy` | counters |
| `tokenizer.dfy` | `Tokenizer._count_words` |
| `processors.dfy` | `Processor.process_msgs` |
| `data_source.dfy` | the current renderer pipeline |
| `legacy_data.dfy` | `data.py` |
| `config.dfy` | settings |
| `schedule.dfy` | the scheduler and `run_task` |
| `migration.dfy` | revision `2741a36d9182` |
| `seqs.dfy` | facts about sequence slices and concatenation |

How each kind of code is modelled:

- **Functions over values.** Code that only computes becomes functions over datatypes.
- **Loops.** The counting loops, the processor loop, `process_msgs` and `run_task` become methods with loop invariants. Each is proved equal to a reference function.
- **Classes.** The scheduler registry, the cron job store, the matcher state and the migrated table become classes. Their methods state the whole new state.

Every external service is a parameter. That covers the clock, ISO-format parsing, the time-zone database, UTC conversion, file existence, the message store, the tokenizers, the renderer and connected bots.

## Model

| member | source | states |
|---|---|---|
| Text.Strip | nonebot_plugin_wordcloud/__init__.py:173 | the result has no whitespace at either end, and is empty exactly when the input is all whitespace |
| Text.StripIsTrimmedInfix | nonebot_plugin_wordcloud/__init__.py:173 | `strip` removes only a whitespace prefix and suffix and keeps the rest contiguous |
| Text.StripIdempotent | nonebot_plugin_wordcloud/data.py:17-22 | stripping a stripped word changes nothing |
| Text.StartsWithAny | nonebot_plugin_wordcloud/data_source.py:58 | reference definition of `startswith` with a tuple: some prefix is a prefix of the message; DataSource.DropCommands and DataSource.EmptyPrefixesDropNothing state its use |
| Text.Join | nonebot_plugin_wordcloud/data.py:30-32 | no pieces give the empty string and one piece is itself; Text.JoinAppend and Text.JoinLength state the separators between more |
| Text.JoinAppend | nonebot_plugin_wordcloud/data.py:30-32 | joining two non-empty runs of pieces is joining each and putting one separator between them, so the pieces stay in order with exactly one separator between neighbours |
| Text.JoinLength | nonebot_plugin_wordcloud/data.py:30-32 | n pieces are joined with exactly n-1 separators |
| Civil.NextDay | nonebot_plugin_wordcloud/__init__.py:186 | the same clock time and zone on the following calendar day |
| Civil.PrevDay | nonebot_plugin_wordcloud/__init__.py:146 | the same clock time and zone on the previous calendar day |
| Civil.AddDays | nonebot_plugin_wordcloud/__init__.py:146-156 | `d + timedelta(days=n)` is again a well-formed date-time |
| Civil.PrevMicrosecond | nonebot_plugin_wordcloud/__init__.py:161-163 | `d - timedelta(microseconds=1)` is well formed and keeps the zone |
| Civil.AddDaysDayNumber | nonebot_plugin_wordcloud/__init__.py:146-156 | adding n days moves the day count by n and keeps the clock time and the zone |
| Civil.AddDaysShift | nonebot_plugin_wordcloud/__init__.py:146-156 | adding n days moves the instant by exactly n days and keeps the clock time and zone |
| Civil.AddDaysKeepsClock | nonebot_plugin_wordcloud/__init__.py:146-156 | hour, minute, second and microsecond are unchanged by day arithmetic |
| Civil.PrevMicrosecondShift | nonebot_plugin_wordcloud/__init__.py:161-163 | the previous microsecond is one microsecond earlier |
| Civil.MidnightBounds | nonebot_plugin_wordcloud/__init__.py:142 | midnight stays on the same day, at most one day back |
| Civil.FirstOfMonthBounds | nonebot_plugin_wordcloud/__init__.py:158 | `replace(day=1, ...)` goes back `day - 1` days and never forward |
| Civil.FirstOfYearBounds | nonebot_plugin_wordcloud/__init__.py:168-170 | `replace(month=1, day=1, ...)` lands on January 1 of the same year and never forward |
| Civil.DayNumberSign | nonebot_plugin_wordcloud/__init__.py:146 | a date is at or after 0001-01-01 exactly when its year is positive |
| Civil.AddDaysYearBound | nonebot_plugin_wordcloud/__init__.py:146-156 | going back never raises the year and going forward never lowers it |
| Civil.AddOneDay | nonebot_plugin_wordcloud/__init__.py:186 | adding one day is the next calendar day |
| Civil.AddDaysBack | nonebot_plugin_wordcloud/__init__.py:146-156 | going back n days stays in Python's range exactly when the day number stays non-negative |
| Civil.Weekday | nonebot_plugin_wordcloud/__init__.py:148-156 | reference definition of `weekday()` with Monday as 0; TimeRangeFacts.WeekStart states that subtracting it lands on a Monday midnight |
| TimeRange.CommandBody | nonebot_plugin_wordcloud/__init__.py:134 | `[:-2]` removes the last two characters, or everything when there are fewer |
| TimeRange.SplitMine | nonebot_plugin_wordcloud/__init__.py:136-138 | `my` is set exactly when the body starts with 我的, and then the prefix is removed |
| TimeRange.BodyEnd | nonebot_plugin_wordcloud/__init__.py:174 | where `$` can match: the end or before one final newline |
| TimeRange.FirstTilde | nonebot_plugin_wordcloud/__init__.py:174 | the first `~` with at least one character after it, or none |
| TimeRange.SplitHistory | nonebot_plugin_wordcloud/__init__.py:174-176 | the groups are a match of the pattern; no shorter lazy group 1 matches; no match means no split exists |
| TimeRange.NoMatch | nonebot_plugin_wordcloud/__init__.py:174 | an empty line, or a newline before the end, cannot match |
| TimeRange.Lazy | nonebot_plugin_wordcloud/__init__.py:174 | group 1 is the shortest that leads to a match |
| TimeRange.Greedy | nonebot_plugin_wordcloud/__init__.py:174 | group 2 runs to where `$` matches |
| TimeRange.AnchorAtBodyEnd | nonebot_plugin_wordcloud/__init__.py:174 | the only end a newline-free match can have is the body end |
| TimeRange.SplitAtFirstTilde | nonebot_plugin_wordcloud/__init__.py:174-176 | on one line the split is at the first `~` that is not the first character and has a character after it; with none the whole text is the start literal; empty text does not match |
| TimeRange.KeywordBranch | nonebot_plugin_wordcloud/__init__.py:141-171 | reference definition of the keyword branches; TimeRangeFacts.TodayRange through TimeRangeFacts.ThisYearRange state each range and its overflow |
| TimeRange.HistoryBranch | nonebot_plugin_wordcloud/__init__.py:172-188 | reference definition of the 历史 branch; TimeRangeFacts.HistoryWithoutLiteral, HistorySingleDay, HistoryTwoLiterals and HistoryInvalidLiteral state its cases |
| TimeRange.WordBranch | nonebot_plugin_wordcloud/__init__.py:141-194 | reference definition of the branch chain; TimeRangeFacts.KeywordCommand, HistoryCommand and UnknownCommand state which branch runs |
| TimeRange.Resolve | nonebot_plugin_wordcloud/__init__.py:124-194 | reference definition of the handler's writes and ending; TimeRange.CommandState.HandleFirstReceive is proved against it and the TimeRangeFacts rows state its cases |
| TimeRange.CommandState.HandleFirstReceive | nonebot_plugin_wordcloud/__init__.py:124-194 | `my`, `start` and `stop` take the values the handler writes and keep their previous values otherwise; the handler ends as the resolved branch does |
| TimeRangeFacts.CommandNameParts | nonebot_plugin_wordcloud/__init__.py:134-138 | from each alias, the keyword and the 我的 flag are read back |
| TimeRangeFacts.KeywordWordsAreNotMine | nonebot_plugin_wordcloud/__init__.py:82-101 | no range keyword itself starts with 我的 |
| TimeRangeFacts.MineOnlySetsMy | nonebot_plugin_wordcloud/__init__.py:136-138 | 我的 changes only `my`; start, stop and the ending are the same |
| TimeRangeFacts.KeywordCommand | nonebot_plugin_wordcloud/__init__.py:141-171 | each keyword alias runs its own branch |
| TimeRangeFacts.HistoryCommand | nonebot_plugin_wordcloud/__init__.py:172-173 | 历史 works on the stripped argument text |
| TimeRangeFacts.UnknownCommand | nonebot_plugin_wordcloud/__init__.py:189-194 | any other word ends with the usage text when the argument is empty, silently otherwise, and writes no range |
| TimeRangeFacts.NotInGroupRefused | nonebot_plugin_wordcloud/__init__.py:131-132 | outside a group session the command is refused and nothing is written |
| TimeRangeFacts.TodayRange | nonebot_plugin_wordcloud/__init__.py:141-143 | 今日 runs from midnight of today to now |
| TimeRangeFacts.YesterdayRange | nonebot_plugin_wordcloud/__init__.py:144-146 | 昨日 is the whole previous day and ends where 今日 starts; it overflows only on 0001-01-01 |
| TimeRangeFacts.WeekStart | nonebot_plugin_wordcloud/__init__.py:148-150 | the week start is the Monday midnight of the current week |
| TimeRangeFacts.WeekBefore | nonebot_plugin_wordcloud/__init__.py:152-156 | seven days before the week start is the previous Monday, when it exists |
| TimeRangeFacts.ThisWeekRange | nonebot_plugin_wordcloud/__init__.py:147-151 | 本周 runs from the Monday midnight 0 to 6 days back up to now |
| TimeRangeFacts.LastWeekMeetsThisWeek | nonebot_plugin_wordcloud/__init__.py:147-156 | 上周 stops where 本周 starts |
| TimeRangeFacts.LastWeekOverflow | nonebot_plugin_wordcloud/__init__.py:152-156 | 上周 overflows exactly in the first week of year 1 |
| TimeRangeFacts.LastWeekRange | nonebot_plugin_wordcloud/__init__.py:152-156 | 上周 is exactly seven days from a Monday midnight |
| TimeRangeFacts.ThisMonthRange | nonebot_plugin_wordcloud/__init__.py:157-159 | 本月 runs from midnight of the first of the month up to now |
| TimeRangeFacts.LastMonthRange | nonebot_plugin_wordcloud/__init__.py:160-166 | 上月 is the whole previous month, ending one microsecond before 本月 starts; it overflows only in January of year 1 |
| TimeRangeFacts.ThisYearRange | nonebot_plugin_wordcloud/__init__.py:167-171 | 年度 runs from midnight of January 1 up to now |
| TimeRangeFacts.HistoryWithoutLiteral | nonebot_plugin_wordcloud/__init__.py:172-174 | 历史 without an argument writes neither bound, so both are prompted for |
| TimeRangeFacts.HistorySingleDay | nonebot_plugin_wordcloud/__init__.py:179-186 | one literal means the whole day it falls on |
| TimeRangeFacts.HistoryTwoLiterals | nonebot_plugin_wordcloud/__init__.py:175-180 | two literals are kept exactly as parsed |
| TimeRangeFacts.HistoryInvalidLiteral | nonebot_plugin_wordcloud/__init__.py:177-188 | a literal that does not parse ends with the invalid-date reply |
| Counting.Increment | nonebot_plugin_wordcloud/data_source.py:50 | one more occurrence of `w`; other counts unchanged |
| Counting.TallyCounts | nonebot_plugin_wordcloud/tokenizer/base.py:22-25 | the keys are the distinct elements and each count is the element's multiplicity |
| Counting.TallyPositive | nonebot_plugin_wordcloud/tokenizer/base.py:22-25 | every count is at least one |
| Counting.TallyTotal | nonebot_plugin_wordcloud/tokenizer/base.py:22-25 | the counts sum to the number of elements |
| Counting.TallyPermutation | nonebot_plugin_wordcloud/tokenizer/base.py:22-25 | the counter does not depend on the order of the elements |
| Tokenizer.CountWords | nonebot_plugin_wordcloud/tokenizer/base.py:22-25 | each distinct token maps to its multiplicity, which is at least one |
| Tokenizer.CountWordsTotal | nonebot_plugin_wordcloud/tokenizer/base.py:22-25 | the counts add up to the number of tokens |
| Tokenizer.CountWordsPermutation | nonebot_plugin_wordcloud/tokenizer/base.py:22-25 | reordered tokens give the same dictionary |
| Processors.FlattenAt | nonebot_plugin_wordcloud/processors/base.py:17-22 | the result for message i sits right after the results of the earlier messages: a string as itself, a list as its elements in order |
| Processors.ProcessMsgs | nonebot_plugin_wordcloud/processors/base.py:13-23 | the output is the in-order concatenation of the per-message results |
| Processors.FlattenEmpty | nonebot_plugin_wordcloud/processors/base.py:13-23 | no messages give an empty list |
| Processors.FlattenLength | nonebot_plugin_wordcloud/processors/base.py:13-23 | the output length is the sum of the result widths |
| Processors.FlattenAppend | nonebot_plugin_wordcloud/processors/base.py:13-23 | processing distributes over concatenation of the input |
| Processors.FlattenAllStrings | nonebot_plugin_wordcloud/processors/base.py:19-21 | when every message yields one string, the output is the element-wise image |
| DataSource.CommandPrefixes | nonebot_plugin_wordcloud/data_source.py:57 | the prefixes are the configured command starts that are not empty |
| DataSource.DropCommands | nonebot_plugin_wordcloud/data_source.py:58 | a message is kept exactly when it does not start with a prefix; never more messages |
| DataSource.DropCommandsAppend | nonebot_plugin_wordcloud/data_source.py:58 | filtering distributes over concatenation, so order is kept |
| DataSource.EmptyPrefixesDropNothing | nonebot_plugin_wordcloud/data_source.py:57-58 | with only empty command starts, every message is kept |
| DataSource.NonStopwords | nonebot_plugin_wordcloud/data_source.py:47-49 | a word is kept exactly when it is not a stopword |
| DataSource.Stopwords | nonebot_plugin_wordcloud/data_source.py:41-44 | no stopword path gives the empty set; a missing file raises `FileNotFoundError`; otherwise the set of the file's lines |
| DataSource.GetFrequencies | nonebot_plugin_wordcloud/data_source.py:39-51 | fails exactly when the stopword file is missing; otherwise the loop computes the counter of the non-stopwords |
| DataSource.FrequenciesCounts | nonebot_plugin_wordcloud/data_source.py:46-51 | the keys are exactly the non-stopword inputs, and each count is the word's number of occurrences |
| DataSource.NonStopwordsCount | nonebot_plugin_wordcloud/data_source.py:47-49 | filtering keeps every occurrence of a non-stopword |
| DataSource.FrequenciesTotal | nonebot_plugin_wordcloud/data_source.py:46-51 | the counts sum to the number of non-stopword inputs |
| DataSource.FrequenciesEmpty | nonebot_plugin_wordcloud/data_source.py:46-51 | no words give no frequencies |
| DataSource.AsWeights | nonebot_plugin_wordcloud/data_source.py:39 | the float dictionary has the same keys and values as the counter |
| DataSource.AnalyseMessages | nonebot_plugin_wordcloud/data_source.py:54-66 | the result is the chain's: the first dictionary returned wins, else the frequencies of the last message list, or the stopword file's error; the loop runs exactly as many processors as the chain reaches |
| DataSource.ChainFirstDictionary | nonebot_plugin_wordcloud/data_source.py:60-63 | a processor that is reached and returns a dictionary decides the result, no later processor runs, and the stopword file is never opened |
| DataSource.ChainNoDictionary | nonebot_plugin_wordcloud/data_source.py:60-66 | when every processor passes messages on, the result fails exactly for a missing stopword file and is otherwise the frequencies of the last list |
| DataSource.ChainFails | nonebot_plugin_wordcloud/data_source.py:41-66 | the chain raises exactly when it reaches counting and the stopword file is missing |
| DataSource.InputToReached | nonebot_plugin_wordcloud/data_source.py:60-63 | a processor is reached only when every earlier one was |
| DataSource.GetMask | nonebot_plugin_wordcloud/data_source.py:28-36 | the group's mask when its file exists, else the default mask when that exists, else none |
| DataSource.GetMaskExisting | nonebot_plugin_wordcloud/data_source.py:28-36 | a mask is read only from a file that exists |
| DataSource.SetDefault | nonebot_plugin_wordcloud/data_source.py:74-87 | `setdefault` adds the key only when missing and never changes an existing value |
| DataSource.ChooseColormap | nonebot_plugin_wordcloud/data_source.py:81-85 | a name is used as is; a list yields one of its elements, and fails exactly when the list is empty |
| DataSource.DefaultOptions | nonebot_plugin_wordcloud/data_source.py:74-87 | the defaults cover exactly font_path, width, height, background_color, colormap and mask |
| DataSource.MergedPrecedence | nonebot_plugin_wordcloud/data_source.py:72-87 | user options are never overwritten and each default fills only a missing key |
| DataSource.Merged | nonebot_plugin_wordcloud/data_source.py:72-87 | reference definition of user options over defaults; DataSource.MergedPrecedence and DataSource.SetDefaultsMerged state it |
| DataSource.SetDefaultMerged | nonebot_plugin_wordcloud/data_source.py:74-87 | each `setdefault` extends the merge by one default |
| DataSource.SetDefaultsMerged | nonebot_plugin_wordcloud/data_source.py:72-87 | the six `setdefault` calls, in order, give the user's options merged over the six defaults |
| DataSource.BuildOptions | nonebot_plugin_wordcloud/data_source.py:72-87 | the options are the user's merged over the defaults; they fail exactly when the colormap list is empty, even when the user set a colormap |
| DataSource.GetWordcloud | nonebot_plugin_wordcloud/data_source.py:69-93 | an analysis error escapes first; then an empty colormap list raises `IndexError`; a renderer `ValueError` gives no image; otherwise the PNG bytes of the merged options; it fails exactly for a missing stopword file that is reached or an empty colormap list |
| LegacyData.StripAll | nonebot_plugin_wordcloud/data.py:15-16 | each stopword line is stripped, order kept |
| LegacyData.Counted | nonebot_plugin_wordcloud/data.py:18-22 | counted words are non-empty and not stopwords |
| LegacyData.CountWords | nonebot_plugin_wordcloud/data.py:13-23 | the loop computes the counter of the stripped, non-empty, non-stopword words |
| LegacyData.CountWordsSpec | nonebot_plugin_wordcloud/data.py:13-23 | keys are stripped, non-empty non-stopwords; each count is the number of inputs stripping to it; every counting input shows up |
| LegacyData.CountedOccurrences | nonebot_plugin_wordcloud/data.py:18-22 | a counted word's multiplicity is the number of inputs that strip to it |
| LegacyData.CountedStripped | nonebot_plugin_wordcloud/data.py:18-22 | every counted word is already stripped |
| LegacyData.CountedContains | nonebot_plugin_wordcloud/data.py:18-22 | every input that counts is among the counted words |
| LegacyData.JoinedMessagesLength | nonebot_plugin_wordcloud/data.py:29-32 | the joined text is as long as the kept messages plus one character for each space between neighbours |
| LegacyData.JoinedMessagesSnoc | nonebot_plugin_wordcloud/data.py:29-32 | message by message: a command adds nothing, the first kept message is the whole text, every later kept message follows one space |
| LegacyData.JoinedMessages | nonebot_plugin_wordcloud/data.py:29-32 | reference definition of the tokenizer input; LegacyData.JoinedMessagesLength and LegacyData.JoinedMessagesSnoc state it |
| LegacyData.LegacyGetWordcloud | nonebot_plugin_wordcloud/data.py:13-47 | no stopword path raises `AttributeError`, a missing file `FileNotFoundError`; a `ValueError` is logged and gives no image; otherwise the rendered image |
| PluginConfig.FontPath | nonebot_plugin_wordcloud/config.py:33-36 | a falsy font path becomes the bundled `SourceHanSans.otf` next to the module; a truthy one is kept |
| PluginConfig.BaseScheduleTime | nonebot_plugin_wordcloud/config.py:38-46 | a falsy value gives 22:00:00; a string is parsed, and a bad one raises |
| PluginConfig.ScheduleZone | nonebot_plugin_wordcloud/config.py:48-54 | a falsy zone gives the local zone; a named zone must exist |
| PluginConfig.SetDefaultValues | nonebot_plugin_wordcloud/config.py:31-56 | succeeds exactly when time and zone do; writes only the font path and the zoned time; all other settings unchanged |
| PluginConfig.EmptyDefaults | nonebot_plugin_wordcloud/config.py:31-56 | on empty settings the validator adds exactly the bundled font path and 22:00:00 in the local zone |
| PluginConfig.EmptySettings | nonebot_plugin_wordcloud/config.py:13-56 | with nothing configured every field takes its declared default |
| PluginConfig.ZoneReplacedNotConverted | nonebot_plugin_wordcloud/config.py:48-55 | a configured zone replaces the literal's offset without shifting the clock time |
| PluginConfig.ParseConfig | nonebot_plugin_wordcloud/config.py:13-56 | reference definition of `Config.parse_obj`; PluginConfig.EmptySettings states the all-defaults result and PluginConfig.SetDefaultValues the validator it runs first |
| PluginConfig.MaskPath | nonebot_plugin_wordcloud/config.py:58-62 | reference definition of the mask file name; PluginConfig.MaskPathInjective states that names never collide |
| PluginConfig.MaskPathInjective | nonebot_plugin_wordcloud/config.py:58-62 | different keys name different mask files, and no key names the default file |
| Schedule.JobFor | nonebot_plugin_wordcloud/schedule.py:36-45 | the job fires at the key's hour, minute and second and is called with the key |
| Schedule.CronRuntime.AddJob | nonebot_plugin_wordcloud/schedule.py:36-45 | a fresh job handle is returned and only that job is added |
| Schedule.CronRuntime.Remove | nonebot_plugin_wordcloud/schedule.py:31-32 | only that job is removed |
| Schedule.DistinctTimes | nonebot_plugin_wordcloud/schedule.py:47-50 | the grouped query yields each stored non-null time once |
| Schedule.DistinctTimesCover | nonebot_plugin_wordcloud/schedule.py:47-50 | the query's times are exactly the stored non-null times |
| Schedule.Scheduler.RemoveAll | nonebot_plugin_wordcloud/schedule.py:31-33 | every registered job is removed, and nothing else, and the registry is cleared |
| Schedule.Scheduler.AddMissing | nonebot_plugin_wordcloud/schedule.py:52-61 | each time not yet registered gets its own new job; registered ones are kept |
| Schedule.Scheduler.Refresh | nonebot_plugin_wordcloud/schedule.py:29-61 | the registry holds exactly the default time and the stored times, each job firing at its key; old jobs are removed and other jobs untouched |
| Schedule.RefreshTwice | nonebot_plugin_wordcloud/schedule.py:29-61 | refreshing again against the same store registers the same times |
| Schedule.RegisteredTimesDefault | nonebot_plugin_wordcloud/schedule.py:36-45 | the default time is always registered, and is the only one when every stored time equals it |
| Schedule.RegisteredTimesMembers | nonebot_plugin_wordcloud/schedule.py:36-61 | a time is registered exactly when it is the default or a stored time |
| Schedule.Selected | nonebot_plugin_wordcloud/schedule.py:65-68 | the task visits exactly the records stored at the fired time |
| Schedule.VisitedCount | nonebot_plugin_wordcloud/schedule.py:68-69 | records are visited up to the first whose bot is not connected |
| Schedule.RunTask | nonebot_plugin_wordcloud/schedule.py:63-86 | one query per visited record, for its group, excluding its bot, over today in UTC; a non-empty image is sent to that group; a missing bot ends the task |
| Schedule.RunTaskAsWritten | nonebot_plugin_wordcloud/schedule.py:63-86 | as written the task raises in its first pass: it fetches at most the first record's messages, and only when that record's bot is connected; it raises exactly when some record is scheduled at the fired time, and never sends |
| Schedule.IntendedRunTaskSends | nonebot_plugin_wordcloud/schedule.py:68-86 | a first record with a connected bot whose messages render to a non-empty image makes the intended task send, where the task as written sends nothing |
| Schedule.TodayBounds | nonebot_plugin_wordcloud/schedule.py:71-73 | the task's range starts at midnight and spans less than a day |
| Schedule.TodayIsTodayCommand | nonebot_plugin_wordcloud/schedule.py:71-73 | the task's range is the range of the 今日 command |
| Schedule.Today | nonebot_plugin_wordcloud/schedule.py:71-73 | reference definition of the task's range; Schedule.TodayBounds and Schedule.TodayIsTodayCommand state it |
| Schedule.QueryFor | nonebot_plugin_wordcloud/schedule.py:71-80 | reference definition of one record's query; Schedule.VisitQueries and Schedule.Visit state that each visit issues it |
| Schedule.Visit | nonebot_plugin_wordcloud/schedule.py:69-86 | one visit queries the record's group without its bot's own messages, and sends the rendered image to that group exactly when it is non-empty |
| Schedule.VisitQueries | nonebot_plugin_wordcloud/schedule.py:68-80 | the k-th query is built from the k-th visited record, its bot and the k-th reading of the clock |
| Schedule.DeliveriesSnoc | nonebot_plugin_wordcloud/schedule.py:81-86 | one more query adds exactly its own delivery at the end |
| Schedule.DeliveriesToQueried | nonebot_plugin_wordcloud/schedule.py:81-86 | only non-empty images are sent, each to a group that was queried |
| Schedule.DeliveriesCount | nonebot_plugin_wordcloud/schedule.py:81-86 | one image is sent for every query whose rendering is non-empty, and no other |
| Migration.IntOf | nonebot_plugin_wordcloud/migrations/2741a36d9182_map_target.py:30 | `int(x)` succeeds exactly for a present string that parses, with the parsed value |
| Migration.ParseOfStr | nonebot_plugin_wordcloud/migrations/2741a36d9182_map_target.py:82 | `int(str(n)) == n` |
| Migration.StrCanonical | nonebot_plugin_wordcloud/migrations/2741a36d9182_map_target.py:82 | `str(n)` is a canonical decimal |
| Migration.CanonicalParses | nonebot_plugin_wordcloud/migrations/2741a36d9182_map_target.py:30 | a canonical decimal is parsed to the number whose `str` it is |
| Migration.IntRoundTrip | nonebot_plugin_wordcloud/migrations/2741a36d9182_map_target.py:30 | `str(int(s)) == s` exactly for canonical decimals |
| Migration.NonNumericRejected | nonebot_plugin_wordcloud/migrations/2741a36d9182_map_target.py:30 | a string holding a character other than the whitespace `int` skips, a digit, a sign or an underscore makes `int` raise |
| Migration.IntStrip | nonebot_plugin_wordcloud/migrations/2741a36d9182_map_target.py:30 | what `int` parses after skipping whitespace: no longer than the input, and no skipped whitespace at either end |
| Migration.IntStripKeeps | nonebot_plugin_wordcloud/migrations/2741a36d9182_map_target.py:30 | a character `int` does not skip is never removed |
| Migration.SeparatorNotSkipped | nonebot_plugin_wordcloud/migrations/2741a36d9182_map_target.py:30 | U+001C is whitespace to `strip`, which removes it, but `int` raises on it |
| Migration.ParseDecimal | nonebot_plugin_wordcloud/migrations/2741a36d9182_map_target.py:30 | reference definition of `int(s)` in base 10; Migration.IntOf, CanonicalParses, IntRoundTrip, NonNumericRejected and SeparatorNotSkipped state it |
| Migration.IntToString | nonebot_plugin_wordcloud/migrations/2741a36d9182_map_target.py:82 | reference definition of `str(n)`; Migration.ParseOfStr and Migration.StrCanonical state it |
| Migration.UpgradeRow | nonebot_plugin_wordcloud/migrations/2741a36d9182_map_target.py:26-67 | the upgrade sets only `target`, and fails exactly when building the target fails |
| Migration.DowngradeRow | nonebot_plugin_wordcloud/migrations/2741a36d9182_map_target.py:79-99 | the downgrade fails exactly on a row without a target |
| Migration.UpgradeTags | nonebot_plugin_wordcloud/migrations/2741a36d9182_map_target.py:27-67 | each platform gets its `platform_type`; telegram is Common exactly when `channel_id` is None |
| Migration.UpgradeValues | nonebot_plugin_wordcloud/migrations/2741a36d9182_map_target.py:27-67 | the target carries the converted or copied ids; the catch-all's `detail_type` is "group" exactly when `group_id` is truthy |
| Migration.UpgradeFails | nonebot_plugin_wordcloud/migrations/2741a36d9182_map_target.py:27-53 | a row fails exactly when an id passed to `int` is missing or does not parse |
| Migration.UpgradeTarget | nonebot_plugin_wordcloud/migrations/2741a36d9182_map_target.py:27-67 | reference definition of the target built for each platform; Migration.UpgradeTags, UpgradeValues and UpgradeFails state it |
| Migration.DowngradeWrites | nonebot_plugin_wordcloud/migrations/2741a36d9182_map_target.py:80-99 | only the id columns of the tag change (and `platform` for the catch-all); Telegram Common clears `channel_id` |
| Migration.RoundTrip | nonebot_plugin_wordcloud/migrations/2741a36d9182_map_target.py:26-99 | downgrading an upgraded row restores it exactly when its converted ids are canonical and a telegram chat has a `group_id` |
| Migration.TelegramNoneGroup | nonebot_plugin_wordcloud/migrations/2741a36d9182_map_target.py:42-89 | a telegram chat without `group_id` comes back with the string "None" |
| Migration.LeadingZeroNotRestored | nonebot_plugin_wordcloud/migrations/2741a36d9182_map_target.py:27-82 | a qq group id "007" comes back as "7" |
| Migration.UpgradeAll | nonebot_plugin_wordcloud/migrations/2741a36d9182_map_target.py:26-67 | the table upgrades exactly when every row does, row by row |
| Migration.DowngradeAll | nonebot_plugin_wordcloud/migrations/2741a36d9182_map_target.py:79-99 | the table downgrades exactly when every row has a target, row by row |
| Migration.UpgradeAllTargets | nonebot_plugin_wordcloud/migrations/2741a36d9182_map_target.py:26-67 | after the upgrade every row has a target and keeps all other columns |
| Migration.TableRoundTrip | nonebot_plugin_wordcloud/migrations/2741a36d9182_map_target.py:20-102 | upgrading and then downgrading a table of restorable rows gives back the upgraded table |
| Migration.ScheduleTable.Upgrade | nonebot_plugin_wordcloud/migrations/2741a36d9182_map_target.py:20-70 | success commits every upgraded row; a failing row leaves the table as it was |
| Migration.ScheduleTable.Downgrade | nonebot_plugin_wordcloud/migrations/2741a36d9182_map_target.py:73-102 | success commits every downgraded row; a failing row leaves the table as it was |

## Where the code and the documented behaviour differ

The model follows the code in each case. For `run_task` it also models the documented behaviour.

- A downgraded telegram chat does not always get its `group_id` back. A telegram row with no `channel_id` and a null `group_id` returns with `group_id` set to the four-character string "None", because the downgrade applies `str` to the stored chat id. A qq, qqguild or forum id whose text is not the form `str` produces, such as "007" or " 12", returns in canonical form. See `Migration.RoundTrip`, `Migration.TelegramNoneGroup` and `Migration.LeadingZeroNotRestored`.
- `time.fromisoformat` is applied to whatever `wordcloud_default_schedule_time` holds. A truthy value that is not a string raises. Pydantic never gets to coerce it.
- `run_task` cannot send an image as written. `schedule.py` imports `get_wordcloud` from `data_source.py`, which takes the messages and a `mask_key`, and calls `run_sync(get_wordcloud)(messages)` with the messages only. That call raises `TypeError` at the first record whose bot is connected, so the task ends there and sends nothing. `Schedule.RunTaskAsWritten` models the code as written. `Schedule.RunTask` models the documented behaviour, rendering each group's messages through a `render` parameter and sending every non-empty image. `Schedule.IntendedRunTaskSends` names inputs on which the two differ.
- `data_source.py` builds its processor list from `plugin_config.worodcloud_msgs_processors`, but `Config` in `config.py` declares no such field, so importing `data_source.py` raises `AttributeError`. The model takes the processor list as a parameter of `DataSource.Chain` and `DataSource.AnalyseMessages`.
- `setdefault("colormap", ...)` evaluates its argument first. So an empty list of colormaps raises `IndexError` even when the user's options already name a colormap.

## Left out

- The chat framework is replaced by parameters and return values: matchers, prompts, message sending, session extraction and `get_bot`. The prompts for a missing `start`/`stop` are represented only by the entries the handler leaves unassigned.
- The database, the message store and `get_message_records` are a sequence of records and a `fetch` parameter. SQL `group_by` on the time column is modelled as first-occurrence deduplication.
- The mask and schedule-time commands outside the word-cloud command and its schedule handler are not modelled. `handle_wordcloud`, `parse_datetime`, `parse_image` and the schedule command handler are framework glue around the modelled functions. The mask commands are commented out in the source.
- Rendering is out of scope. `WordCloud`, PIL, numpy, PNG encoding and image decoding are a `render`/`draw` parameter; a mask is represented by its file path.
- The thread pool, `asyncio` and concurrency are out of scope.
- The tokenizers are parameters. That covers jieba, HanLP and the processors that call them.
- `random.choice` is a `pick` index, reduced modulo the list length.
- Files are given as their contents. The stopword file is its `splitlines`/`readlines` output or the fact that it is missing; a mask file's existence is a predicate. Encoding errors while reading are not modelled.
- Calls into the standard library are parameters: the clock, `fromisoformat`, `ZoneInfo` lookup, the local zone and `astimezone(UTC)`.
- Schedule.ScheduleRecord: `model.py:17` declares the column as `Optional[datetime]`, while `schedule.py` compares it with, and registers jobs for, `datetime.time` values. The model follows `schedule.py`: the stored time is a `datetime.time`, as the registry keys are. Equality is structural here. Python compares aware times by their UTC offset, so two differently zoned keys for the same instant are distinct in the model. A zone with transitions, such as the one `wordcloud_timezone` names (for example "Asia/Shanghai"), gives a `time` whose `utcoffset()` is `None`. Python then compares and hashes that key by its clock fields alone, so a stored naive 22:00 and the zoned default 22:00 are one key in Python and two keys in the model.
- Schedule.RunTask: renders with a `render` parameter instead of the call in `schedule.py`; see the code-versus-behaviour note on `run_task`.
- Schedule.CronRuntime.Remove: requires a live job. APScheduler raises `JobLookupError` for a job removed elsewhere, and the model excludes that case. Cron triggers, misfires and the firing itself are not modelled.
- PluginConfig.ParseConfig: pydantic's type coercion is not modelled. A settings value of the wrong shape is a validation error, not a coerced value.
- PluginConfig.MaskPathInjective: only the `f"mask-{key}.png"` file names are compared. Path normalisation by `pathlib` is not modelled, so keys containing `/` or `..` segments are not known to name distinct files.
- Migration.ParseDecimal: the whitespace `int` skips is modelled as CPython skips it: ASCII whitespace and the non-ASCII characters `str.isspace` accepts, but not U+001C to U+001F. Python's `int` also accepts non-ASCII decimal digits; the model accepts only ASCII digits. Python versions that limit integer string conversion (3.11 and later, and the 3.7 to 3.10 security releases) raise `ValueError` in `int(s)` and `str(n)` beyond 4300 decimal digits; the model, and `Migration.IntToString`, accept any length.
- Migration.DowngradeRow: the downgrade is modelled only on targets of the shapes the upgrade writes. A stored `target` dict missing a key, which makes the source raise `KeyError`, or a telegram Common target whose `chat_id` is an int, cannot be expressed.
- Migration.Row: the platform column is a non-null string. The nullability of the columns at this revision is not visible in the model's sources.
- The other migrations and `migrate.py` are not modelled. They are plain schema changes and data copies.
