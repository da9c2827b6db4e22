/** The word-frequency pipeline of the current renderer: command filtering,
    the chain of message processors, frequency counting with stopwords, the
    mask lookup and the assembly of the renderer's options. */
module DataSource {
  import opened Wrappers
  import opened Seqs
  import opened Text
  import opened Counting
  import opened Processors
  import opened PluginConfig

  // ---------------------------------------------------------------------
  // Command filtering (shared with the legacy renderer)

  /** `tuple(i for i in command_start if i)`: the non-empty command prefixes. */
  function CommandPrefixes(commandStart: seq<string>): (r: seq<string>)
    ensures forall p :: p in r <==> p in commandStart && p != []
  {
    if commandStart == [] then []
    else CommandPrefixes(commandStart[..|commandStart| - 1])
         + (if commandStart[|commandStart| - 1] != [] then [commandStart[|commandStart| - 1]] else [])
  }

  /** A message is a command when it starts with a non-empty command prefix. */
  predicate IsCommand(m: string, commandStart: seq<string>) {
    StartsWithAny(m, CommandPrefixes(commandStart))
  }

  /** The messages that are not commands, in their original order. */
  function DropCommands(msgs: seq<string>, commandStart: seq<string>): (r: seq<string>)
    ensures |r| <= |msgs|
    ensures forall m :: m in r <==> m in msgs && !IsCommand(m, commandStart)
  {
    if msgs == [] then []
    else
      var init, last := msgs[..|msgs| - 1], msgs[|msgs| - 1];
      SplitLast(msgs);
      DropCommands(init, commandStart) + (if IsCommand(last, commandStart) then [] else [last])
  }

  /** One more message is kept unless it is a command. */
  lemma DropCommandsSnoc(msgs: seq<string>, m: string, commandStart: seq<string>)
    ensures DropCommands(msgs + [m], commandStart) ==
      DropCommands(msgs, commandStart) + (if IsCommand(m, commandStart) then [] else [m])
  {
    SnocPrefix(msgs, m);
  }

  /** Filtering distributes over concatenation, so kept messages keep their order. */
  lemma {:induction false} DropCommandsAppend(a: seq<string>, b: seq<string>, commandStart: seq<string>)
    ensures DropCommands(a + b, commandStart) == DropCommands(a, commandStart) + DropCommands(b, commandStart)
    decreases |b|
  {
    if b == [] {
      AppendNil(a);
      AppendNil(DropCommands(a, commandStart));
    } else {
      var init, last := b[..|b| - 1], b[|b| - 1];
      var tail := if IsCommand(last, commandStart) then [] else [last];
      AppendSnoc(a, b);
      DropCommandsSnoc(a + init, last, commandStart);
      DropCommandsAppend(a, init, commandStart);
      SplitLast(b);
      DropCommandsSnoc(init, last, commandStart);
      AppendAssoc(DropCommands(a, commandStart), DropCommands(init, commandStart), tail);
    }
  }

  /** Only empty prefixes configured: no prefix is used. */
  lemma {:induction false} NoCommandPrefixes(commandStart: seq<string>)
    requires forall i :: 0 <= i < |commandStart| ==> commandStart[i] == []
    ensures CommandPrefixes(commandStart) == []
  {
    if commandStart != [] {
      NoCommandPrefixes(commandStart[..|commandStart| - 1]);
    }
  }

  /** Empty command prefixes are ignored: when the only configured prefix is
      empty, nothing is dropped. */
  lemma {:induction false} EmptyPrefixesDropNothing(msgs: seq<string>, commandStart: seq<string>)
    requires forall i :: 0 <= i < |commandStart| ==> commandStart[i] == []
    ensures DropCommands(msgs, commandStart) == msgs
  {
    NoCommandPrefixes(commandStart);
    if msgs != [] {
      EmptyPrefixesDropNothing(msgs[..|msgs| - 1], commandStart);
      SplitLast(msgs);
    }
  }

  // ---------------------------------------------------------------------
  // get_frequencies

  /** The words that are not stopwords, in order. */
  function NonStopwords(words: seq<string>, stopwords: set<string>): (r: seq<string>)
    ensures forall w :: w in r <==> w in words && w !in stopwords
  {
    if words == [] then []
    else
      var init, last := words[..|words| - 1], words[|words| - 1];
      SplitLast(words);
      NonStopwords(init, stopwords) + (if last in stopwords then [] else [last])
  }

  /** The exceptions that escape `_get_wordcloud`: `FileNotFoundError` from
      opening a configured stopword file that does not exist, `IndexError`
      from `random.choice` on an empty colormap list. */
  datatype WordcloudError = FileNotFoundError | IndexError

  /** The configured stopword file as `open` finds it: no path configured, a
      path whose file does not exist, or the file's lines (`splitlines`). */
  datatype StopwordFile = NoStopwordPath | MissingStopwordFile | StopwordLines(lines: seq<string>)

  /** The stopword set: empty when no stopword path is configured, else the
      set of the file's lines; opening a missing file raises. */
  function Stopwords(file: StopwordFile): (r: Result<set<string>, WordcloudError>)
    ensures r.Failure? <==> file.MissingStopwordFile?
    ensures r.Failure? ==> r.error == FileNotFoundError
    ensures file.NoStopwordPath? ==> r == Success({})
    ensures file.StopwordLines? ==> r.Success? && forall w :: w in r.value <==> w in file.lines
  {
    match file
    case NoStopwordPath => Success({})
    case MissingStopwordFile => Failure(FileNotFoundError)
    case StopwordLines(lines) => Success(set l | l in lines)
  }

  /** Reference definition of `get_frequencies`: the counter of the
      non-stopwords. */
  function Frequencies(words: seq<string>, stopwords: set<string>): map<string, nat> {
    Tally(NonStopwords(words, stopwords))
  }

  /** One more word counts once more unless it is a stopword. */
  lemma FrequenciesSnoc(words: seq<string>, i: nat, stopwords: set<string>)
    requires i < |words|
    ensures Frequencies(words[..i + 1], stopwords) ==
      if words[i] in stopwords then Frequencies(words[..i], stopwords)
      else Increment(Frequencies(words[..i], stopwords), words[i])
  {
    var prefix := words[..i + 1];
    PrefixSnoc(words, i);
    var before := NonStopwords(words[..i], stopwords);
    if words[i] !in stopwords {
      var kept := before + [words[i]];
      assert NonStopwords(prefix, stopwords) == kept;
      SnocPrefix(before, words[i]);
    } else {
      assert NonStopwords(prefix, stopwords) == before;
    }
  }

  /** `get_frequencies`: read the stopwords, then the counting loop. */
  method GetFrequencies(words: seq<string>, file: StopwordFile)
    returns (frequencies: Result<map<string, nat>, WordcloudError>)
    ensures frequencies.Failure? <==> file.MissingStopwordFile?
    ensures frequencies.Failure? ==> frequencies.error == FileNotFoundError
    ensures frequencies.Success? ==> frequencies.value == Frequencies(words, Stopwords(file).value)
  {
    var read := Stopwords(file);
    if read.Failure? {
      return Failure(read.error);
    }
    var stopwords := read.value;
    var counts := map[];
    var i := 0;
    while i < |words|
      invariant 0 <= i <= |words|
      invariant counts == Frequencies(words[..i], stopwords)
    {
      var word := words[i];
      FrequenciesSnoc(words, i, stopwords);
      if word !in stopwords {
        counts := Increment(counts, word);
      }
      i := i + 1;
    }
    TakeAll(words);
    frequencies := Success(counts);
  }

  /** Occurrences of `w` among all words. */
  function Occurrences(words: seq<string>, w: string): nat {
    multiset(words)[w]
  }

  /** The keys are exactly the non-stopword inputs, and the count of each is
      its number of occurrences in the input. */
  lemma FrequenciesCounts(words: seq<string>, stopwords: set<string>)
    ensures forall w :: w in Frequencies(words, stopwords) <==> w in words && w !in stopwords
    ensures forall w :: w in Frequencies(words, stopwords) ==> Frequencies(words, stopwords)[w] == Occurrences(words, w)
  {
    var kept := NonStopwords(words, stopwords);
    TallyCounts(kept);
    forall w | w in Frequencies(words, stopwords)
      ensures Frequencies(words, stopwords)[w] == Occurrences(words, w)
    {
      NonStopwordsCount(words, stopwords, w);
    }
  }

  /** Filtering out stopwords keeps every occurrence of a non-stopword. */
  lemma {:induction false} NonStopwordsCount(words: seq<string>, stopwords: set<string>, w: string)
    requires w !in stopwords
    ensures multiset(NonStopwords(words, stopwords))[w] == multiset(words)[w]
  {
    if words != [] {
      var init, last := words[..|words| - 1], words[|words| - 1];
      NonStopwordsCount(init, stopwords, w);
      var kept := NonStopwords(init, stopwords);
      SplitLast(words);
      assert multiset(words) == multiset(init) + multiset{last};
      if last in stopwords {
        assert NonStopwords(words, stopwords) == kept;
      } else {
        assert NonStopwords(words, stopwords) == kept + [last];
        assert multiset(kept + [last]) == multiset(kept) + multiset{last};
      }
    }
  }

  /** The counts sum to the number of inputs that are not stopwords. */
  lemma FrequenciesTotal(words: seq<string>, stopwords: set<string>)
    ensures Total(Frequencies(words, stopwords)) == |NonStopwords(words, stopwords)|
  {
    TallyTotal(NonStopwords(words, stopwords));
  }

  /** No words, no frequencies. */
  lemma FrequenciesEmpty(stopwords: set<string>)
    ensures Frequencies([], stopwords) == map[]
  {
  }

  // ---------------------------------------------------------------------
  // The processor chain of analyse_messages

  /** What a processor's `process_msgs` returns: messages for the next
      processor, or a finished frequency dictionary. */
  datatype ChainValue = Msgs(msgs: seq<string>) | Weights(weights: map<string, real>)

  /** A configured processor: one that keeps the base `process_msgs` and only
      supplies `process_msg`, or one that overrides `process_msgs`. */
  datatype MsgProcessor =
    | Flattening(processMsg: string -> Processed)
    | Overriding(processMsgs: seq<string> -> ChainValue)

  function RunProcessor(p: MsgProcessor, msgs: seq<string>): ChainValue {
    match p
    case Flattening(f) => Msgs(Flatten(msgs, f))
    case Overriding(g) => g(msgs)
  }

  /** Frequencies as the float dictionary the renderer takes. */
  function AsWeights(counts: map<string, nat>): (r: map<string, real>)
    ensures r.Keys == counts.Keys
    ensures forall w :: w in r ==> r[w] == counts[w] as real
  {
    map w | w in counts :: counts[w] as real
  }

  /** Counting the last message list, after reading the stopword file. */
  function Count(msgs: seq<string>, file: StopwordFile): Result<map<string, real>, WordcloudError> {
    match Stopwords(file)
    case Failure(e) => Failure(e)
    case Success(stopwords) => Success(AsWeights(Frequencies(msgs, stopwords)))
  }

  /** Reference definition of the chain: the first dictionary produced wins,
      otherwise the frequencies of the last message list. */
  function Chain(msgs: seq<string>, processors: seq<MsgProcessor>, file: StopwordFile): Result<map<string, real>, WordcloudError>
    decreases |processors|
  {
    if processors == [] then Count(msgs, file)
    else match RunProcessor(processors[0], msgs)
      case Weights(w) => Success(w)
      case Msgs(next) => Chain(next, processors[1..], file)
  }

  /** How many processors the chain runs before it returns. */
  function ChainRuns(msgs: seq<string>, processors: seq<MsgProcessor>): nat
    decreases |processors|
  {
    if processors == [] then 0
    else match RunProcessor(processors[0], msgs)
      case Weights(_) => 1
      case Msgs(next) => 1 + ChainRuns(next, processors[1..])
  }

  /** `analyse_messages`: drop commands, run the processors until one returns
      a dictionary, otherwise count. `runs` is the number of processors run. */
  method AnalyseMessages(msgs: seq<string>, commandStart: seq<string>,
                         processors: seq<MsgProcessor>, file: StopwordFile)
    returns (frequencies: Result<map<string, real>, WordcloudError>, runs: nat)
    ensures frequencies == Chain(DropCommands(msgs, commandStart), processors, file)
    ensures runs == ChainRuns(DropCommands(msgs, commandStart), processors)
  {
    var current := DropCommands(msgs, commandStart);
    ghost var start := current;
    var i := 0;
    while i < |processors|
      invariant 0 <= i <= |processors|
      invariant Chain(start, processors, file) == Chain(current, processors[i..], file)
      invariant ChainRuns(start, processors) == i + ChainRuns(current, processors[i..])
    {
      assert processors[i..][0] == processors[i];
      assert processors[i..][1..] == processors[i + 1..];
      var result := RunProcessor(processors[i], current);
      match result {
        case Weights(w) =>
          return Success(w), i + 1;
        case Msgs(next) =>
          current := next;
      }
      i := i + 1;
    }
    runs := i;
    var counts := GetFrequencies(current, file);
    if counts.Failure? {
      return Failure(counts.error), runs;
    }
    frequencies := Success(AsWeights(counts.value));
  }

  /** Messages entering processor `i`, or `None` once an earlier processor
      has produced a dictionary. */
  function InputTo(msgs: seq<string>, processors: seq<MsgProcessor>, i: nat): Option<seq<string>>
    requires i <= |processors|
  {
    if i == 0 then Some(msgs)
    else match InputTo(msgs, processors, i - 1)
      case None => None
      case Some(m) => (match RunProcessor(processors[i - 1], m)
                       case Weights(_) => None
                       case Msgs(next) => Some(next))
  }

  /** Feeding processors one at a time from the front. */
  lemma {:induction false} InputToShift(msgs: seq<string>, processors: seq<MsgProcessor>, i: nat)
    requires 1 <= i <= |processors|
    requires RunProcessor(processors[0], msgs).Msgs?
    ensures InputTo(msgs, processors, i) ==
      InputTo(RunProcessor(processors[0], msgs).msgs, processors[1..], i - 1)
  {
    if i > 1 {
      InputToShift(msgs, processors, i - 1);
    }
  }

  /** If processor `i` is reached and returns a dictionary, that dictionary is
      the result and no later processor runs; the stopword file is never
      opened, so a missing one does not raise. */
  lemma {:induction false} ChainFirstDictionary(msgs: seq<string>, processors: seq<MsgProcessor>,
                                                file: StopwordFile, i: nat)
    requires i < |processors|
    requires InputTo(msgs, processors, i).Some?
    requires RunProcessor(processors[i], InputTo(msgs, processors, i).value).Weights?
    ensures Chain(msgs, processors, file) ==
      Success(RunProcessor(processors[i], InputTo(msgs, processors, i).value).weights)
    ensures ChainRuns(msgs, processors) == i + 1
    decreases i
  {
    if i > 0 {
      InputToReached(msgs, processors, 1, i);
      assert InputTo(msgs, processors, 0) == Some(msgs);
      var next := RunProcessor(processors[0], msgs).msgs;
      InputToShift(msgs, processors, i);
      assert processors[1..][i - 1] == processors[i];
      ChainFirstDictionary(next, processors[1..], file, i - 1);
    }
  }

  /** If every processor passes messages on, every processor runs and the
      result counts the last list; exactly then a missing stopword file raises. */
  lemma {:induction false} ChainNoDictionary(msgs: seq<string>, processors: seq<MsgProcessor>,
                                             file: StopwordFile)
    requires InputTo(msgs, processors, |processors|).Some?
    ensures Chain(msgs, processors, file).Failure? <==> file.MissingStopwordFile?
    ensures Chain(msgs, processors, file).Success? ==>
      Chain(msgs, processors, file).value ==
      AsWeights(Frequencies(InputTo(msgs, processors, |processors|).value, Stopwords(file).value))
    ensures ChainRuns(msgs, processors) == |processors|
    decreases |processors|
  {
    if processors != [] {
      InputToReached(msgs, processors, 1, |processors|);
      assert InputTo(msgs, processors, 0) == Some(msgs);
      var next := RunProcessor(processors[0], msgs).msgs;
      InputToShift(msgs, processors, |processors|);
      ChainNoDictionary(next, processors[1..], file);
    }
  }

  /** The chain raises exactly when it gets as far as counting and the
      stopword file is missing. */
  lemma {:induction false} ChainFails(msgs: seq<string>, processors: seq<MsgProcessor>, file: StopwordFile)
    ensures Chain(msgs, processors, file).Failure? <==>
      file.MissingStopwordFile? && InputTo(msgs, processors, |processors|).Some?
    decreases |processors|
  {
    if processors != [] {
      match RunProcessor(processors[0], msgs)
      case Weights(_) =>
        if InputTo(msgs, processors, |processors|).Some? {
          InputToReached(msgs, processors, 1, |processors|);
        }
      case Msgs(next) =>
        InputToShift(msgs, processors, |processors|);
        ChainFails(next, processors[1..], file);
    }
  }

  /** A processor reached late was preceded by processors that were reached. */
  lemma {:induction false} InputToReached(msgs: seq<string>, processors: seq<MsgProcessor>, j: nat, i: nat)
    requires j <= i <= |processors|
    requires InputTo(msgs, processors, i).Some?
    ensures InputTo(msgs, processors, j).Some?
    decreases i - j
  {
    if j < i {
      InputToReached(msgs, processors, j + 1, i);
    }
  }

  // ---------------------------------------------------------------------
  // get_mask

  /** The mask handed to the renderer: the image decoded from a file, or `None`. */
  datatype Mask = MaskImage(path: string) | NoMask

  /** The key's mask if its file fileExists, else the default mask if that file
      fileExists, else nothing. `fileExists` stands for `Path.exists`. */
  function GetMask(dataDir: string, key: string, fileExists: string -> bool): (r: Mask)
    ensures fileExists(MaskPath(dataDir, Some(key))) ==> r == MaskImage(MaskPath(dataDir, Some(key)))
    ensures !fileExists(MaskPath(dataDir, Some(key))) && fileExists(MaskPath(dataDir, None)) ==>
      r == MaskImage(MaskPath(dataDir, None))
    ensures r == NoMask <==> !fileExists(MaskPath(dataDir, Some(key))) && !fileExists(MaskPath(dataDir, None))
  {
    if fileExists(MaskPath(dataDir, Some(key))) then MaskImage(MaskPath(dataDir, Some(key)))
    else if fileExists(MaskPath(dataDir, None)) then MaskImage(MaskPath(dataDir, None))
    else NoMask
  }

  /** A mask is only ever read from a file that fileExists. */
  lemma GetMaskExisting(dataDir: string, key: string, fileExists: string -> bool)
    ensures GetMask(dataDir, key, fileExists).MaskImage? ==> fileExists(GetMask(dataDir, key, fileExists).path)
  {
  }

  // ---------------------------------------------------------------------
  // Renderer options of _get_wordcloud

  /** A renderer keyword argument: a plain setting or the mask array. */
  datatype RenderOption = Setting(value: Value) | MaskArray(mask: Mask)

  const DefaultedKeys: set<string> := {"font_path", "width", "height", "background_color", "colormap", "mask"}

  /** `d.setdefault(k, v)` */
  function SetDefault(d: map<string, RenderOption>, k: string, v: RenderOption): (r: map<string, RenderOption>)
    ensures r.Keys == d.Keys + {k}
    ensures k in d ==> r == d
    ensures k !in d ==> r[k] == v && forall j :: j in d ==> r[j] == d[j]
  {
    if k in d then d else d[k := v]
  }

  /** The colormap for this rendering: the configured name, or the element at
      the random index `pick` of the configured list. */
  function ChooseColormap(colormap: Colormap, pick: nat): (r: Result<string, WordcloudError>)
    ensures colormap.Named? ==> r == Success(colormap.name)
    ensures colormap.Choices? ==> (r.Success? <==> colormap.names != [])
    ensures colormap.Choices? && r.Success? ==> r.value in colormap.names
    ensures r.Failure? ==> r.error == IndexError
  {
    match colormap
    case Named(name) => Success(name)
    case Choices(names) => if names == [] then Failure(IndexError) else Success(names[pick % |names|])
  }

  /** The defaults `_get_wordcloud` offers, for a chosen colormap and mask. */
  function DefaultOptions(config: Config, colormap: string, mask: Mask): (d: map<string, RenderOption>)
    ensures d.Keys == DefaultedKeys
  {
    map["font_path" := Setting(Str(config.fontPath)),
        "width" := Setting(Int(config.width)),
        "height" := Setting(Int(config.height)),
        "background_color" := Setting(Str(config.backgroundColor)),
        "colormap" := Setting(Str(colormap)),
        "mask" := MaskArray(mask)]
  }

  /** Reference definition of the merge: the user's value where there is one,
      the default elsewhere. */
  function Merged(user: map<string, Value>, defaults: map<string, RenderOption>): map<string, RenderOption> {
    map k | k in user.Keys + defaults.Keys :: if k in user then Setting(user[k]) else defaults[k]
  }

  /** User options are never overwritten, and each default only fills a key
      the user left unset. */
  lemma MergedPrecedence(user: map<string, Value>, defaults: map<string, RenderOption>)
    ensures Merged(user, defaults).Keys == user.Keys + defaults.Keys
    ensures forall k :: k in user ==> Merged(user, defaults)[k] == Setting(user[k])
    ensures forall k :: k in defaults && k !in user ==> Merged(user, defaults)[k] == defaults[k]
  {
  }

  /** A `setdefault` for a fresh default key extends the merge by that default. */
  lemma SetDefaultMerged(user: map<string, Value>, defaults: map<string, RenderOption>,
                         k: string, v: RenderOption)
    requires k !in defaults
    ensures SetDefault(Merged(user, defaults), k, v) == Merged(user, defaults[k := v])
  {
  }

  /** With no defaults the merge is the user's options. */
  lemma MergedNoDefaults(user: map<string, Value>)
    ensures Merged(user, map[]) == map k | k in user :: Setting(user[k])
  {
  }

  /** The six `setdefault` calls, in their order, on the user's options give the
      merge of the user's options over the six defaults. */
  lemma SetDefaultsMerged(user: map<string, Value>, font: RenderOption, width: RenderOption,
                          height: RenderOption, background: RenderOption,
                          colormap: RenderOption, mask: RenderOption)
    ensures SetDefault(SetDefault(SetDefault(SetDefault(SetDefault(SetDefault(
              map k | k in user :: Setting(user[k]),
              "font_path", font), "width", width), "height", height),
              "background_color", background), "colormap", colormap), "mask", mask)
      == Merged(user, map["font_path" := font, "width" := width, "height" := height,
                          "background_color" := background, "colormap" := colormap, "mask" := mask])
  {
    MergedNoDefaults(user);
    var d: map<string, RenderOption> := map[];
    SetDefaultMerged(user, d, "font_path", font);
    d := d["font_path" := font];
    SetDefaultMerged(user, d, "width", width);
    d := d["width" := width];
    SetDefaultMerged(user, d, "height", height);
    d := d["height" := height];
    SetDefaultMerged(user, d, "background_color", background);
    d := d["background_color" := background];
    SetDefaultMerged(user, d, "colormap", colormap);
    d := d["colormap" := colormap];
    SetDefaultMerged(user, d, "mask", mask);
  }

  /** The user's options, then `setdefault` for each default. Both default
      arguments are evaluated before `setdefault` looks at the key, so an empty
      colormap list raises even when the user set a colormap. */
  method BuildOptions(config: Config, dataDir: string, maskKey: string,
                      fileExists: string -> bool, pick: nat)
    returns (r: Result<map<string, RenderOption>, WordcloudError>)
    ensures r.Success? <==> ChooseColormap(config.colormap, pick).Success?
    ensures r.Failure? ==> r.error == IndexError
    ensures r.Success? ==>
      r.value == Merged(config.options, DefaultOptions(config, ChooseColormap(config.colormap, pick).value,
                                                       GetMask(dataDir, maskKey, fileExists)))
  {
    var user := config.options;
    var options: map<string, RenderOption> := map k | k in user :: Setting(user[k]);
    options := SetDefault(options, "font_path", Setting(Str(config.fontPath)));
    options := SetDefault(options, "width", Setting(Int(config.width)));
    options := SetDefault(options, "height", Setting(Int(config.height)));
    options := SetDefault(options, "background_color", Setting(Str(config.backgroundColor)));
    var colormap := ChooseColormap(config.colormap, pick);
    if colormap.Failure? {
      return Failure(IndexError);
    }
    options := SetDefault(options, "colormap", Setting(Str(colormap.value)));
    var mask := GetMask(dataDir, maskKey, fileExists);
    options := SetDefault(options, "mask", MaskArray(mask));
    SetDefaultsMerged(user, Setting(Str(config.fontPath)), Setting(Int(config.width)),
                      Setting(Int(config.height)), Setting(Str(config.backgroundColor)),
                      Setting(Str(colormap.value)), MaskArray(mask));
    r := Success(options);
  }

  /** What the renderer does with the frequencies and options: PNG bytes, or
      a `ValueError`. */
  datatype Rendered = Png(bytes: seq<bv8>) | RenderValueError

  /** `_get_wordcloud`: analyse, build the options, render; a `ValueError`
      while rendering gives `None`. An exception while analysing escapes
      before the options are built. */
  method GetWordcloud(msgs: seq<string>, maskKey: string, config: Config, dataDir: string,
                      commandStart: seq<string>, processors: seq<MsgProcessor>,
                      file: StopwordFile, fileExists: string -> bool, pick: nat,
                      render: (map<string, real>, map<string, RenderOption>) -> Rendered)
    returns (image: Result<Option<seq<bv8>>, WordcloudError>)
    ensures var frequencies := Chain(DropCommands(msgs, commandStart), processors, file);
      var colormap := ChooseColormap(config.colormap, pick);
      && (frequencies.Failure? ==> image == Failure(frequencies.error))
      && (frequencies.Success? && colormap.Failure? ==> image == Failure(IndexError))
      && (frequencies.Success? && colormap.Success? ==>
            var options := Merged(config.options, DefaultOptions(config, colormap.value,
                                                                 GetMask(dataDir, maskKey, fileExists)));
            image == Success(match render(frequencies.value, options)
                             case Png(b) => Some(b)
                             case RenderValueError => None))
    ensures image.Failure? <==>
      (file.MissingStopwordFile? && InputTo(DropCommands(msgs, commandStart), processors, |processors|).Some?)
      || config.colormap == Choices([])
  {
    var frequencies, runs := AnalyseMessages(msgs, commandStart, processors, file);
    ChainFails(DropCommands(msgs, commandStart), processors, file);
    if frequencies.Failure? {
      return Failure(frequencies.error);
    }
    var options := BuildOptions(config, dataDir, maskKey, fileExists, pick);
    if options.Failure? {
      return Failure(options.error);
    }
    match render(frequencies.value, options.value) {
      case Png(b) => image := Success(Some(b));
      case RenderValueError => image := Success(None);
    }
  }
}
