/** The word-cloud command's first handler: it turns the matched command name
    and its argument into the `my`, `start` and `stop` entries of the matcher
    state, against a caller-supplied "now". */
module TimeRange {
  import opened Wrappers
  import opened Text
  import opened Civil

  /** The time-range keywords the command name can carry. */
  datatype Keyword = Today | Yesterday | ThisWeek | LastWeek | ThisMonth | LastMonth | ThisYear | History

  /** How the handler ends: normally (the matcher goes on to prompt for any
      missing `start`/`stop`), by `finish` with a reply, or by an uncaught
      `OverflowError` from date arithmetic. */
  datatype Reply = NotInGroup | Usage | Silent | InvalidDate
  datatype Ending = Proceed | Finish(reply: Reply) | RaiseOverflow

  /** The state entries the handler assigned (`None`: left unassigned). */
  datatype Writes = Writes(my: Option<bool>, start: Option<PyDateTime>, stop: Option<PyDateTime>)
  datatype Handled = Handled(writes: Writes, ending: Ending)

  const Suffix: string := "词云"
  const DaysPerWeek: int := 7
  const MinePrefix: string := "我的"

  /** `commands[0][:-2]`: the command name without its last two characters. */
  function CommandBody(name: string): (body: string)
    ensures |name| >= 2 ==> name == body + name[|name| - 2..]
    ensures |name| < 2 ==> body == []
  {
    if |name| >= 2 then name[..|name| - 2] else []
  }

  /** `command.startswith("我的")` and, when it does, `command[2:]`. */
  function SplitMine(body: string): (r: (bool, string))
    ensures r.0 <==> StartsWith(body, MinePrefix)
    ensures r.0 ==> body == MinePrefix + r.1
    ensures !r.0 ==> r.1 == body
  {
    if StartsWith(body, MinePrefix) then
      assert body == body[..2] + body[2..];
      (true, body[2..])
    else (false, body)
  }

  function KeywordOf(word: string): Option<Keyword> {
    if word == "今日" then Some(Today)
    else if word == "昨日" then Some(Yesterday)
    else if word == "本周" then Some(ThisWeek)
    else if word == "上周" then Some(LastWeek)
    else if word == "本月" then Some(ThisMonth)
    else if word == "上月" then Some(LastMonth)
    else if word == "年度" then Some(ThisYear)
    else if word == "历史" then Some(History)
    else None
  }

  /** The command name that spells keyword word `word`, with or without "我的". */
  function CommandName(mine: bool, word: string): string {
    (if mine then MinePrefix else []) + word + Suffix
  }

  // ---------------------------------------------------------------------------
  // The 历史 literal: re.match(r"^(.+?)(?:~(.+))?$", text)
  // ---------------------------------------------------------------------------

  predicate NoNewline(s: string) {
    '\n' !in s
  }

  /** Where `$` (without MULTILINE) can match: at the end, or before a final newline. */
  predicate EndAnchor(s: string, p: int) {
    p == |s| || (p == |s| - 1 && 0 <= p && s[p] == '\n')
  }

  /** The pattern matches `s` with group 1 equal to `s[..k]`, and with the
      optional `~(.+)` group taken (`present`) or skipped. `.` does not match a newline. */
  ghost predicate MatchAt(s: string, k: int, present: bool) {
    && 1 <= k <= |s| && NoNewline(s[..k])
    && if present then
         k + 2 <= |s| && s[k] == '~'
         && exists j | k + 2 <= j <= |s| :: NoNewline(s[k + 1..j]) && EndAnchor(s, j)
       else EndAnchor(s, k)
  }

  /** The text before a single final newline. */
  function BodyEnd(s: string): (e: nat)
    ensures e <= |s| && EndAnchor(s, e)
  {
    if |s| > 0 && s[|s| - 1] == '\n' then |s| - 1 else |s|
  }

  /** The first `k` in `[i, e - 2]` with `s[k] == '~'`, or `e` when there is none. */
  function FirstTilde(s: string, i: nat, e: nat): (k: nat)
    requires 1 <= i && e <= |s|
    ensures k == e || (i <= k && k + 2 <= e && s[k] == '~')
    ensures forall k' | i <= k' < k && k' + 2 <= e :: s[k'] != '~'
    ensures k == e ==> forall k' | i <= k' && k' + 2 <= e :: s[k'] != '~'
    decreases e - i
  {
    if i + 2 > e then e
    else if s[i] == '~' then i
    else FirstTilde(s, i + 1, e)
  }

  /** The two capture groups of the 历史 pattern, or `None` when it does not match. */
  function SplitHistory(s: string): (r: Option<(string, Option<string>)>)
    ensures r.Some? ==>
      var (g1, g2) := r.value;
      && 1 <= |g1| <= |s| && g1 == s[..|g1|]
      && MatchAt(s, |g1|, g2.Some?)
      && (g2.Some? ==>
            && |g1| + 1 + |g2.value| <= |s| && g2.value == s[|g1| + 1..|g1| + 1 + |g2.value|]
            && g2.value != [] && NoNewline(g2.value) && EndAnchor(s, |g1| + 1 + |g2.value|)
            && forall j | |g1| + 1 + |g2.value| < j <= |s| :: !(NoNewline(s[|g1| + 1..j]) && EndAnchor(s, j)))
    ensures r.Some? ==> forall k | 1 <= k < |r.value.0| :: !MatchAt(s, k, true) && !MatchAt(s, k, false)
    ensures r.Some? && r.value.1.None? ==> !MatchAt(s, |r.value.0|, true)
    ensures r.None? ==> forall k, p :: !MatchAt(s, k, p)
  {
    var e := BodyEnd(s);
    if e == 0 || '\n' in s[..e] then
      NoMatch(s, e);
      None
    else
      var k := FirstTilde(s, 1, e);
      Lazy(s, e, k);
      if k < e then
        var g2 := s[k + 1..e];
        assert s[..e] == s[..k] + [s[k]] + g2;
        assert NoNewline(s[k + 1..e]) && EndAnchor(s, e);
        Greedy(s, k, e);
        Some((s[..k], Some(g2)))
      else
        assert s[..k] == s[..e];
        Some((s[..e], None))
  }

  lemma AnchorAtBodyEnd(s: string, j: int)
    requires EndAnchor(s, j) && 0 <= j && NoNewline(s[..j])
    ensures j == BodyEnd(s)
  {
  }

  lemma NoMatch(s: string, e: nat)
    requires e == BodyEnd(s)
    requires e == 0 || '\n' in s[..e]
    ensures forall k, p :: !MatchAt(s, k, p)
  {
    forall k, p ensures !MatchAt(s, k, p) {
      NoMatchAt(s, e, k, p);
    }
  }

  /** A newline before the body's end leaves no room for group 1. */
  lemma NoMatchAt(s: string, e: nat, k: int, p: bool)
    requires e == BodyEnd(s)
    requires e == 0 || '\n' in s[..e]
    ensures !MatchAt(s, k, p)
  {
    if e == 0 {
      if |s| == 1 { assert s[..1] == s; }
    } else if 1 <= k <= |s| {
      var idx :| 0 <= idx < e && s[..e][idx] == '\n';
      assert s[idx] == '\n';
      if idx < k {
        assert s[..k][idx] == '\n';
      } else {
        forall j | k + 2 <= j <= |s| && s[k] == '~' && EndAnchor(s, j)
          ensures !NoNewline(s[k + 1..j])
        {
          if k < idx { assert s[k + 1..j][idx - k - 1] == '\n'; }
        }
      }
    }
  }

  lemma Lazy(s: string, e: nat, k: nat)
    requires e == BodyEnd(s) && e >= 1 && '\n' !in s[..e]
    requires k == FirstTilde(s, 1, e)
    ensures forall k' | 1 <= k' < k :: !MatchAt(s, k', true) && !MatchAt(s, k', false)
    ensures k == e ==> !MatchAt(s, k, true)
  {
    forall k' | 1 <= k' <= k && MatchAt(s, k', true) ensures k' == k && k < e {
      var j :| k' + 2 <= j <= |s| && NoNewline(s[k' + 1..j]) && EndAnchor(s, j);
      assert s[..j] == s[..k'] + [s[k']] + s[k' + 1..j];
      AnchorAtBodyEnd(s, j);
    }
    forall k' | 1 <= k' < k && MatchAt(s, k', false) ensures false {
      assert NoNewline(s[..k']);
    }
  }

  lemma Greedy(s: string, k: nat, e: nat)
    requires e == BodyEnd(s) && k + 1 <= e
    ensures forall j | e < j <= |s| :: !(NoNewline(s[k + 1..j]) && EndAnchor(s, j))
  {
    forall j | e < j <= |s| && NoNewline(s[k + 1..j]) && EndAnchor(s, j) ensures false {
    }
  }

  /** On one line of text, the pattern splits at the first `~` that is not the
      first character and is followed by at least one character; otherwise the
      whole text is the start literal. Empty text does not match. */
  lemma SplitAtFirstTilde(s: string)
    requires NoNewline(s)
    ensures s == [] <==> SplitHistory(s).None?
    ensures s != [] ==>
      var k := FirstTilde(s, 1, |s|);
      SplitHistory(s) == if k < |s| then Some((s[..k], Some(s[k + 1..]))) else Some((s, None))
  {
    if s != [] {
      assert s[|s| - 1] in s;
      assert BodyEnd(s) == |s|;
      assert s[..|s|] == s;
    }
  }

  // ---------------------------------------------------------------------------
  // The handler
  // ---------------------------------------------------------------------------

  /** What one branch of the handler assigns besides `my`, and how it ends. */
  datatype Outcome = Outcome(start: Option<PyDateTime>, stop: Option<PyDateTime>, ending: Ending)

  /** The branch for a range keyword other than 历史, in the handler's order of
      assignments; a `timedelta` result outside Python's range raises. */
  function KeywordBranch(kw: Keyword, now: PyDateTime): Outcome
    requires kw != History
  {
    match kw
    case Today =>
      Outcome(Some(Midnight(now)), Some(now), Proceed)
    case Yesterday =>
      var stop: PyDateTime := Midnight(now);
      var start := AddDays(stop, -1);
      if start.InRange() then Outcome(Some(start), Some(stop), Proceed)
      else Outcome(None, Some(stop), RaiseOverflow)
    case ThisWeek =>
      var start := AddDays(Midnight(now), -Weekday(now));
      if start.InRange() then Outcome(Some(start), Some(now), Proceed)
      else Outcome(None, None, RaiseOverflow)
    case LastWeek =>
      var stop := AddDays(Midnight(now), -Weekday(now));
      if !stop.InRange() then Outcome(None, None, RaiseOverflow)
      else
        var start := AddDays(stop, -DaysPerWeek);
        if start.InRange() then Outcome(Some(start), Some(stop), Proceed)
        else Outcome(None, Some(stop), RaiseOverflow)
    case ThisMonth =>
      Outcome(Some(FirstOfMonth(now)), Some(now), Proceed)
    case LastMonth =>
      var stop := PrevMicrosecond(FirstOfMonth(now));
      if !stop.InRange() then Outcome(None, None, RaiseOverflow)
      else Outcome(Some(FirstOfMonth(stop)), Some(stop), Proceed)
    case ThisYear =>
      Outcome(Some(FirstOfYear(now)), Some(now), Proceed)
  }

  /** The 历史 branch on the stripped argument text. `parse` is
      `get_datetime_fromisoformat_with_timezone`, `None` where it raises `ValueError`. */
  function HistoryBranch(text: string, parse: string -> Option<PyDateTime>): Outcome {
    match SplitHistory(text)
    case None => Outcome(None, None, Proceed)
    case Some((a, b)) =>
      match parse(a)
      case None => Outcome(None, None, Finish(InvalidDate))
      case Some(first) =>
        if b.Some? && b.value != [] then
          match parse(b.value)
          case None => Outcome(Some(first), None, Finish(InvalidDate))
          case Some(second) => Outcome(Some(first), Some(second), Proceed)
        else
          var start: PyDateTime := Midnight(first);
          var stop := AddDays(start, 1);
          if stop.InRange() then Outcome(Some(start), Some(stop), Proceed)
          else Outcome(Some(start), None, RaiseOverflow)
  }

  /** The branch chain on the keyword left after "我的" is removed. */
  function WordBranch(word: string, argText: string, now: PyDateTime, parse: string -> Option<PyDateTime>): Outcome {
    match KeywordOf(word)
    case None => Outcome(None, None, Finish(if argText == [] then Usage else Silent))
    case Some(kw) =>
      if kw == History then HistoryBranch(Strip(argText), parse)
      else KeywordBranch(kw, now)
  }

  /** `handle_first_receive`: `inGroup` is whether the session is group-level,
      `command` the alias that matched, `argText` the argument's plain text. */
  function Resolve(inGroup: bool, command: string, argText: string, now: PyDateTime,
                   parse: string -> Option<PyDateTime>): Handled
  {
    if !inGroup then Handled(Writes(None, None, None), Finish(NotInGroup))
    else
      var (mine, word) := SplitMine(CommandBody(command));
      var o := WordBranch(word, argText, now, parse);
      Handled(Writes(Some(mine), o.start, o.stop), o.ending)
  }

  // ---------------------------------------------------------------------------
  // The matcher state
  // ---------------------------------------------------------------------------

  function Overlay<T>(old_: Option<T>, written: Option<T>): Option<T> {
    if written.Some? then written else old_
  }

  /** The `my`, `start` and `stop` entries of the matcher's `T_State`. */
  class CommandState {
    var my: Option<bool>
    var start: Option<PyDateTime>
    var stop: Option<PyDateTime>

    constructor ()
      ensures my == None && start == None && stop == None
    {
      my, start, stop := None, None, None;
    }

    method HandleFirstReceive(inGroup: bool, command: string, argText: string, now: PyDateTime,
                              parse: string -> Option<PyDateTime>) returns (ending: Ending)
      modifies this
      ensures var h := Resolve(inGroup, command, argText, now, parse);
              && ending == h.ending
              && my == Overlay(old(my), h.writes.my)
              && start == Overlay(old(start), h.writes.start)
              && stop == Overlay(old(stop), h.writes.stop)
    {
      var h := Resolve(inGroup, command, argText, now, parse);
      if h.writes.my.Some? { my := h.writes.my; }
      if h.writes.start.Some? { start := h.writes.start; }
      if h.writes.stop.Some? { stop := h.writes.stop; }
      ending := h.ending;
    }
  }
}
