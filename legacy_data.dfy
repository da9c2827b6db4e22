/** The older renderer still shipped beside the current one: messages joined
    into one text, tokens stripped and counted against a stopword list, and
    a single rendering attempt whose `ValueError` is logged. */
module LegacyData {
  import opened Wrappers
  import opened Seqs
  import opened Text
  import opened Counting
  import opened DataSource

  /** `[word.strip() for word in f.readlines()]` */
  function StripAll(lines: seq<string>): (r: seq<string>)
    ensures |r| == |lines|
    ensures forall i :: 0 <= i < |lines| ==> r[i] == Strip(lines[i])
  {
    seq(|lines|, i requires 0 <= i < |lines| => Strip(lines[i]))
  }

  /** Does `word`, once stripped, get counted? */
  predicate Counts(word: string, stopwords: seq<string>) {
    Strip(word) != [] && Strip(word) !in stopwords
  }

  /** The stripped words that are counted, in input order. */
  function Counted(words: seq<string>, stopwords: seq<string>): (r: seq<string>)
    ensures forall w :: w in r ==> w != [] && w !in stopwords
  {
    if words == [] then []
    else
      Counted(words[..|words| - 1], stopwords)
      + (if Counts(words[|words| - 1], stopwords) then [Strip(words[|words| - 1])] else [])
  }

  /** One more word counts once more when it counts at all. */
  lemma CountedTallySnoc(words: seq<string>, i: nat, stopwords: seq<string>)
    requires i < |words|
    ensures Tally(Counted(words[..i + 1], stopwords)) ==
      if Counts(words[i], stopwords) then Increment(Tally(Counted(words[..i], stopwords)), Strip(words[i]))
      else Tally(Counted(words[..i], stopwords))
  {
    var prefix := words[..i + 1];
    PrefixSnoc(words, i);
    var before := Counted(words[..i], stopwords);
    if Counts(words[i], stopwords) {
      var kept := before + [Strip(words[i])];
      assert Counted(prefix, stopwords) == kept;
      SnocPrefix(before, Strip(words[i]));
    } else {
      assert Counted(prefix, stopwords) == before;
    }
  }

  /** The loop of `count_words`: strip, skip empty words and stopwords, count. */
  method CountWords(words: seq<string>, stopwordLines: seq<string>) returns (cnt: map<string, nat>)
    ensures cnt == Tally(Counted(words, StripAll(stopwordLines)))
  {
    var stopwords := StripAll(stopwordLines);
    cnt := map[];
    var i := 0;
    while i < |words|
      invariant 0 <= i <= |words|
      invariant cnt == Tally(Counted(words[..i], stopwords))
    {
      var word := Strip(words[i]);
      CountedTallySnoc(words, i, stopwords);
      ghost var next := Tally(Counted(words[..i + 1], stopwords));
      if word != [] && word !in stopwords {
        assert next == Increment(cnt, word);
        cnt := Increment(cnt, word);
      } else {
        assert next == cnt;
      }
      i := i + 1;
    }
    TakeAll(words);
  }

  /** How many inputs strip to `w`. */
  function StrippedOccurrences(words: seq<string>, w: string): nat {
    if words == [] then 0
    else StrippedOccurrences(words[..|words| - 1], w) + (if Strip(words[|words| - 1]) == w then 1 else 0)
  }

  /** A counted word's multiplicity is the number of inputs that strip to it. */
  lemma {:induction false} CountedOccurrences(words: seq<string>, stopwords: seq<string>, w: string)
    requires w != [] && w !in stopwords
    ensures multiset(Counted(words, stopwords))[w] == StrippedOccurrences(words, w)
  {
    if words != [] {
      CountedOccurrences(words[..|words| - 1], stopwords, w);
    }
  }

  /** The counter's keys: non-empty, not stopwords, already stripped, and
      each the stripped form of some input. Its counts: the number of inputs
      stripping to the key. */
  lemma CountWordsSpec(words: seq<string>, stopwordLines: seq<string>)
    ensures var cnt := Tally(Counted(words, StripAll(stopwordLines)));
      && (forall w :: w in cnt ==> w != [] && w !in StripAll(stopwordLines) && Strip(w) == w)
      && (forall w :: w in cnt ==> cnt[w] == StrippedOccurrences(words, w))
      && (forall i :: 0 <= i < |words| && Counts(words[i], StripAll(stopwordLines)) ==> Strip(words[i]) in cnt)
  {
    var stopwords := StripAll(stopwordLines);
    var kept := Counted(words, stopwords);
    TallyCounts(kept);
    forall w | w in kept
      ensures Strip(w) == w
    {
      CountedStripped(words, stopwords, w);
    }
    forall w | w in kept
      ensures multiset(kept)[w] == StrippedOccurrences(words, w)
    {
      CountedOccurrences(words, stopwords, w);
    }
    forall i | 0 <= i < |words| && Counts(words[i], stopwords)
      ensures Strip(words[i]) in kept
    {
      CountedContains(words, stopwords, i);
    }
  }

  /** Every counted word is a stripped input, so stripping it again changes nothing. */
  lemma {:induction false} CountedStripped(words: seq<string>, stopwords: seq<string>, w: string)
    requires w in Counted(words, stopwords)
    ensures Strip(w) == w
  {
    var init := words[..|words| - 1];
    if w in Counted(init, stopwords) {
      CountedStripped(init, stopwords, w);
    } else {
      StripIdempotent(words[|words| - 1]);
    }
  }

  /** Every input that counts shows up among the counted words. */
  lemma {:induction false} CountedContains(words: seq<string>, stopwords: seq<string>, i: nat)
    requires i < |words| && Counts(words[i], stopwords)
    ensures Strip(words[i]) in Counted(words, stopwords)
  {
    var init := words[..|words| - 1];
    if i < |words| - 1 {
      assert init[i] == words[i];
      CountedContains(init, stopwords, i);
    }
  }

  /** The text handed to the tokenizer: the non-command messages, in order,
      separated by single spaces. */
  function JoinedMessages(messages: seq<string>, commandStart: seq<string>): string {
    Join(" ", DropCommands(messages, commandStart))
  }

  /** The joined text is as long as the kept messages plus one space between
      each adjacent pair. */
  lemma JoinedMessagesLength(messages: seq<string>, commandStart: seq<string>)
    ensures var kept := DropCommands(messages, commandStart);
      |JoinedMessages(messages, commandStart)| == SumLengths(kept) + (if kept == [] then 0 else |kept| - 1)
  {
    var kept := DropCommands(messages, commandStart);
    if kept != [] {
      JoinLength(" ", kept);
    }
  }

  /** The joined text message by message: a command adds nothing, the first
      kept message is the text so far, and every later kept message is
      appended after one space. As no messages join to the empty text, this
      fixes the whole text: the kept messages in order, single spaces between. */
  lemma JoinedMessagesSnoc(messages: seq<string>, m: string, commandStart: seq<string>)
    ensures JoinedMessages(messages + [m], commandStart) ==
      if IsCommand(m, commandStart) then JoinedMessages(messages, commandStart)
      else if DropCommands(messages, commandStart) == [] then m
      else JoinedMessages(messages, commandStart) + " " + m
  {
    var kept := DropCommands(messages, commandStart);
    DropCommandsSnoc(messages, m, commandStart);
    if IsCommand(m, commandStart) {
      AppendNil(kept);
    } else if kept == [] {
      assert kept + [m] == [m];
    } else {
      JoinAppend(" ", kept, [m]);
    }
  }

  /** The renderer of the older module: an image, or a `ValueError` message. */
  datatype Drawn = Picture(image: seq<bv8>) | DrawValueError(message: string)

  /** The older `get_wordcloud`. `lcut` stands for the full-mode tokenizer,
      `draw` for rendering the counter with the configured font, size and
      background. With no stopword path configured `None.open` raises
      `AttributeError`; a configured path whose file is missing raises
      `FileNotFoundError`. The error log is returned as `logged`. */
  method LegacyGetWordcloud(messages: seq<string>, commandStart: seq<string>, file: StopwordFile,
                            lcut: string -> seq<string>, draw: map<string, nat> -> Drawn)
    returns (image: Result<Option<seq<bv8>>, string>, logged: seq<string>)
    ensures file.NoStopwordPath? ==> image == Failure("AttributeError") && logged == []
    ensures file.MissingStopwordFile? ==> image == Failure("FileNotFoundError") && logged == []
    ensures file.StopwordLines? ==>
      var freq := Tally(Counted(lcut(JoinedMessages(messages, commandStart)), StripAll(file.lines)));
      match draw(freq)
      case Picture(b) => image == Success(Some(b)) && logged == []
      case DrawValueError(e) => image == Success(None) && logged == [e]
  {
    logged := [];
    var msgs := JoinedMessages(messages, commandStart);
    var words := lcut(msgs);
    match file {
      case NoStopwordPath => return Failure("AttributeError"), logged;
      case MissingStopwordFile => return Failure("FileNotFoundError"), logged;
      case StopwordLines(lines) =>
        var frequency := CountWords(words, lines);
        match draw(frequency) {
          case Picture(b) => image := Success(Some(b));
          case DrawValueError(e) =>
            logged := logged + [e];
            image := Success(None);
        }
    }
  }
}
