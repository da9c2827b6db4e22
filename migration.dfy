/** The data migration that turns the per-platform id columns of the schedule
    table into one structured `target` per row (`upgrade`), and back
    (`downgrade`), including the Python `int()` / `str()` conversions on the
    numeric ids. */
module Migration {
  import opened Wrappers
  import opened Text

  // ---------------------------------------------------------------------
  // Decimal integers: Python's `int(str)` and `str(int)`
  // ---------------------------------------------------------------------

  predicate IsDigit(c: char) { '0' <= c <= '9' }

  predicate AllDigits(s: string) {
    forall k | 0 <= k < |s| :: IsDigit(s[k])
  }

  function DigitValue(c: char): (d: nat)
    requires IsDigit(c)
    ensures d < 10
  {
    (c as int) - ('0' as int)
  }

  function DigitChar(d: nat): (c: char)
    requires d < 10
    ensures IsDigit(c) && DigitValue(c) == d
  {
    (('0' as int) + d) as char
  }

  /** The digits of an unsigned literal, most significant first, as a number. */
  function DigitsValue(ds: string): nat
    requires AllDigits(ds)
  {
    if ds == [] then 0 else DigitsValue(ds[..|ds| - 1]) * 10 + DigitValue(ds[|ds| - 1])
  }

  /** What `int()` accepts after the sign: digits, with single underscores
      allowed between two digits. */
  predicate DigitGroups(b: string) {
    && b != [] && IsDigit(b[0]) && IsDigit(b[|b| - 1])
    && (forall k | 0 <= k < |b| :: IsDigit(b[k]) || b[k] == '_')
    && (forall k | 0 <= k < |b| - 1 :: !UnderscorePair(b, k))
  }

  /** Two underscores in a row at position `k`. */
  predicate UnderscorePair(b: string, k: int)
    requires 0 <= k < |b| - 1
  {
    b[k] == '_' && b[k + 1] == '_'
  }

  /** A run of digits is a single digit group. */
  lemma DigitsAreGroups(b: string)
    requires b != [] && AllDigits(b)
    ensures DigitGroups(b)
  {
  }

  /** The digits of `b` with the underscores dropped. */
  function Digits(b: string): (r: string)
    ensures AllDigits(r)
  {
    if b == [] then []
    else Digits(b[..|b| - 1]) + (if IsDigit(b[|b| - 1]) then [b[|b| - 1]] else [])
  }

  /** The whitespace `int()` skips around a literal: ASCII tab, newline,
      vertical tab, form feed, carriage return and space, and the non-ASCII
      characters `str.isspace` accepts. Unlike `str.strip`, `int()` does not
      skip the separators U+001C to U+001F. */
  predicate IsIntSpace(c: char) {
    IsSpace(c) && !('\U{001C}' <= c <= '\U{001F}')
  }

  /** `s` without the whitespace `int()` skips at either end. */
  function IntStrip(s: string): (r: string)
    ensures |r| <= |s|
    ensures r == [] || (!IsIntSpace(r[0]) && !IsIntSpace(r[|r| - 1]))
    decreases |s|
  {
    if s != [] && IsIntSpace(s[0]) then IntStrip(s[1..])
    else if s != [] && IsIntSpace(s[|s| - 1]) then IntStrip(s[..|s| - 1])
    else s
  }

  /** Every character that is not `int()` whitespace survives the stripping. */
  lemma {:induction false} IntStripKeeps(s: string, k: nat)
    requires k < |s| && !IsIntSpace(s[k])
    ensures s[k] in IntStrip(s)
    decreases |s|
  {
    if IsIntSpace(s[0]) {
      assert s[1..][k - 1] == s[k];
      IntStripKeeps(s[1..], k - 1);
    } else if IsIntSpace(s[|s| - 1]) {
      assert s[..|s| - 1][k] == s[k];
      IntStripKeeps(s[..|s| - 1], k);
    }
  }

  /** Python's `int(s)` for a string in base 10: surrounding whitespace is
      ignored, then an optional sign, then digit groups. `None` means that
      `int` raises `ValueError`. */
  function ParseDecimal(s: string): Option<int> {
    var t := IntStrip(s);
    var body := if t != [] && (t[0] == '-' || t[0] == '+') then t[1..] else t;
    if !DigitGroups(body) then None
    else
      var n: int := DigitsValue(Digits(body));
      Some(if t[0] == '-' then -n else n)
  }

  /** `str(n)` for a natural number. */
  function NatToString(n: nat): string
  {
    if n < 10 then [DigitChar(n)] else NatToString(n / 10) + [DigitChar(n % 10)]
  }

  /** Python's `str(n)` for an `int`. */
  function IntToString(n: int): string {
    if n < 0 then "-" + NatToString(-n) else NatToString(n)
  }

  /** Digits only, and no leading zero except in "0" itself. */
  predicate CanonicalNat(b: string) {
    b != [] && AllDigits(b) && (b[0] == '0' ==> |b| == 1)
  }

  /** The strings that `str` produces for some `int`. */
  predicate CanonicalDecimal(s: string) {
    CanonicalNat(s) || (|s| >= 2 && s[0] == '-' && CanonicalNat(s[1..]) && s[1] != '0')
  }

  /** A literal without a leading zero has a positive value. */
  lemma {:induction false} LeadingNonZeroPositive(b: string)
    requires b != [] && AllDigits(b) && b[0] != '0'
    ensures DigitsValue(b) >= 1
  {
    if |b| > 1 {
      LeadingNonZeroPositive(b[..|b| - 1]);
    }
  }

  /** `str` of a natural number is canonical and reads back as the number. */
  lemma {:induction false} NatToStringFacts(n: nat)
    ensures CanonicalNat(NatToString(n))
    ensures DigitsValue(NatToString(n)) == n
  {
    if n >= 10 {
      var p := NatToString(n / 10);
      NatToStringFacts(n / 10);
      var r := p + [DigitChar(n % 10)];
      assert r[..|r| - 1] == p;
    }
  }

  /** A canonical unsigned literal is `str` of its value. */
  lemma {:induction false} CanonicalNatBack(b: string)
    requires CanonicalNat(b)
    ensures NatToString(DigitsValue(b)) == b
  {
    var p := b[..|b| - 1];
    var d := DigitValue(b[|b| - 1]);
    if |b| == 1 {
      assert DigitsValue(b) == DigitsValue(p) * 10 + d;
      assert p == [];
      assert DigitChar(d) == b[0];
      assert [b[0]] == b;
    } else {
      assert CanonicalNat(p);
      LeadingNonZeroPositive(p);
      CanonicalNatBack(p);
      var v := DigitsValue(b);
      assert v == DigitsValue(p) * 10 + d;
      assert v / 10 == DigitsValue(p) && v % 10 == d;
      assert DigitChar(d) == b[|b| - 1];
      assert b == p + [b[|b| - 1]];
    }
  }

  /** Dropping underscores from a string of digits changes nothing. */
  lemma {:induction false} DigitsOfDigits(b: string)
    requires AllDigits(b)
    ensures Digits(b) == b
  {
    if b != [] {
      DigitsOfDigits(b[..|b| - 1]);
      assert b == b[..|b| - 1] + [b[|b| - 1]];
    }
  }

  /** `int()` of an unsigned run of digits. */
  lemma ParseUnsigned(b: string)
    requires b != [] && AllDigits(b)
    ensures ParseDecimal(b) == Some(DigitsValue(b))
  {
    assert IsDigit(b[0]) && IsDigit(b[|b| - 1]);
    assert IntStrip(b) == b;
    DigitsOfDigits(b);
    DigitsAreGroups(b);
    assert !(b[0] == '-' || b[0] == '+');
  }

  /** `int()` of a minus sign followed by digits. */
  lemma ParseNegative(b: string)
    requires b != [] && AllDigits(b)
    ensures ParseDecimal("-" + b) == Some(-(DigitsValue(b) as int))
  {
    NegativeLiteral(b);
    DigitsOfDigits(b);
    DigitsAreGroups(b);
    ParseMinus("-" + b);
  }

  /** A minus sign followed by digits has no surrounding space to strip. */
  lemma NegativeLiteral(b: string)
    requires b != [] && AllDigits(b)
    ensures "-" + b != [] && ("-" + b)[0] == '-' && ("-" + b)[1..] == b && IntStrip("-" + b) == "-" + b
  {
    var s := "-" + b;
    assert s[|s| - 1] == b[|b| - 1];
    assert s[1..] == b;
  }

  lemma ParseMinus(s: string)
    requires s != [] && s[0] == '-' && IntStrip(s) == s && DigitGroups(s[1..])
    ensures ParseDecimal(s) == Some(-(DigitsValue(Digits(s[1..])) as int))
  {
  }

  /** A canonical literal is read by `int()` as the number whose `str` it is. */
  lemma CanonicalParses(s: string)
    requires CanonicalDecimal(s)
    ensures ParseDecimal(s).Some? && IntToString(ParseDecimal(s).value) == s
  {
    if CanonicalNat(s) {
      ParseUnsigned(s);
      CanonicalNatBack(s);
    } else {
      var p := s[1..];
      assert s == "-" + p;
      ParseNegative(p);
      LeadingNonZeroPositive(p);
      CanonicalNatBack(p);
    }
  }

  /** `str` of any `int` is canonical. */
  lemma StrCanonical(n: int)
    ensures CanonicalDecimal(IntToString(n))
  {
    if n < 0 {
      var p := NatToString(-n);
      NatToStringFacts(-n);
      assert ("-" + p)[1..] == p;
    } else {
      NatToStringFacts(n);
    }
  }

  /** `int(str(n)) == n`. */
  lemma ParseOfStr(n: int)
    ensures ParseDecimal(IntToString(n)) == Some(n)
  {
    if n < 0 {
      NatToStringFacts(-n);
      ParseNegative(NatToString(-n));
    } else {
      NatToStringFacts(n);
      ParseUnsigned(NatToString(n));
    }
  }

  /** `str(int(s)) == s` exactly for the canonical literals. */
  lemma IntRoundTrip(s: string)
    ensures (ParseDecimal(s).Some? && IntToString(ParseDecimal(s).value) == s) <==> CanonicalDecimal(s)
  {
    if ParseDecimal(s).Some? {
      StrCanonical(ParseDecimal(s).value);
    }
    if CanonicalDecimal(s) {
      CanonicalParses(s);
    }
  }

  /** Every character of a string that `int()` accepts, once stripped, is a
      digit, a sign or an underscore. */
  lemma ParsedCharacters(s: string)
    requires ParseDecimal(s).Some?
    ensures forall c | c in IntStrip(s) :: IsDigit(c) || c in "+-_"
  {
    var t := IntStrip(s);
    var body := if t != [] && (t[0] == '-' || t[0] == '+') then t[1..] else t;
    forall c | c in t
      ensures IsDigit(c) || c in "+-_"
    {
      var j :| 0 <= j < |t| && t[j] == c;
      if body != t && j > 0 {
        assert body[j - 1] == c;
      } else if body == t {
        assert body[j] == c;
      }
    }
  }

  /** `int()` raises on any string holding a character that is neither
      whitespace it skips, a digit, a sign nor an underscore. */
  lemma NonNumericRejected(s: string, k: nat)
    requires k < |s| && !IsDigit(s[k]) && !IsIntSpace(s[k]) && s[k] !in "+-_"
    ensures ParseDecimal(s) == None
  {
    IntStripKeeps(s, k);
    if ParseDecimal(s).Some? {
      ParsedCharacters(s);
      assert false;
    }
  }

  /** An information separator is whitespace to `strip` but not to `int()`:
      `"\x1c1".strip()` is `"1"`, while `int("\x1c1")` raises. */
  lemma SeparatorNotSkipped()
    ensures Strip("\U{001C}1") == "1"
    ensures ParseDecimal("\U{001C}1") == None
  {
    var s := "\U{001C}1";
    assert LeadingSpace(s) == 1 + LeadingSpace(s[1..]);
    assert s[1..] == "1";
    NonNumericRejected(s, 0);
  }

  // ---------------------------------------------------------------------
  // Rows and targets
  // ---------------------------------------------------------------------

  /** The structured target a row is mapped to, one variant per
      `platform_type` tag. Integer ids are Python `int`s; the other ids are
      copied strings or `None`. */
  datatype Target =
    | QQGroup(qqGroupId: int)
    | QQGuildChannel(guildChannelId: int)
    | KaiheilaChannel(kaiheilaChannelId: Option<string>)
    | TelegramCommon(commonChatId: Option<string>)
    | TelegramForum(forumChatId: int, messageThreadId: int)
    | FeishuGroup(feishuChatId: Option<string>)
    | UnknownOnebot12(sourcePlatform: string, detailType: string,
                      group: Option<string>, guild: Option<string>, channel: Option<string>)
  {
    /** The value stored under `"platform_type"`. */
    function PlatformType(): string {
      match this
      case QQGroup(_) => "QQ Group"
      case QQGuildChannel(_) => "QQ Guild Channel"
      case KaiheilaChannel(_) => "Kaiheila Channel"
      case TelegramCommon(_) => "Telegram Common"
      case TelegramForum(_, _) => "Telegram Forum"
      case FeishuGroup(_) => "Feishu Group"
      case UnknownOnebot12(_, _, _, _, _) => "Unknow Onebot 12 Platform"
    }
  }

  /** One row of the schedule table as the migration sees it. `time` and
      `botId` are carried through untouched. */
  datatype Row = Row(id: int, botId: string, platform: string,
                     groupId: Option<string>, guildId: Option<string>, channelId: Option<string>,
                     time: string, target: Option<Target>)

  /** What makes a row's migration raise. */
  datatype MigrationError =
    | IntOfNone                 // `int(None)`: TypeError
    | NotAnInteger(s: string)   // `int(s)`: ValueError
    | NoTarget                  // `None["platform_type"]`: TypeError

  /** `int(x)` for a nullable string column. */
  function IntOf(x: Option<string>): (r: Result<int, MigrationError>)
    ensures r.Success? <==> x.Some? && ParseDecimal(x.value).Some?
    ensures r.Success? ==> r.value == ParseDecimal(x.value).value
  {
    match x
    case None => Failure(IntOfNone)
    case Some(s) =>
      match ParseDecimal(s)
      case None => Failure(NotAnInteger(s))
      case Some(n) => Success(n)
  }

  /** `str(x)` for a JSON value that is a string or null. */
  function StrOf(x: Option<string>): string {
    match x
    case None => "None"
    case Some(s) => s
  }

  /** Python truthiness of a nullable string. */
  predicate Truthy(x: Option<string>) {
    x.Some? && x.value != ""
  }

  /** The target `upgrade` builds for a row. */
  function UpgradeTarget(row: Row): Result<Target, MigrationError> {
    if row.platform == "qq" then
      var g :- IntOf(row.groupId);
      Success(QQGroup(g))
    else if row.platform == "qqguild" then
      var c :- IntOf(row.channelId);
      Success(QQGuildChannel(c))
    else if row.platform == "kaiheila" then
      Success(KaiheilaChannel(row.channelId))
    else if row.platform == "telegram" then
      if row.channelId.None? then Success(TelegramCommon(row.groupId))
      else
        var chat :- IntOf(row.guildId);
        var thread :- IntOf(row.channelId);
        Success(TelegramForum(chat, thread))
    else if row.platform == "feishu" then
      Success(FeishuGroup(row.groupId))
    else
      Success(UnknownOnebot12(row.platform, if Truthy(row.groupId) then "group" else "channel",
                              row.groupId, row.guildId, row.channelId))
  }

  /** One iteration of `upgrade`'s loop: only `target` is assigned. */
  function UpgradeRow(row: Row): (r: Result<Row, MigrationError>)
    ensures r.Success? <==> UpgradeTarget(row).Success?
    ensures r.Success? ==> r.value == row.(target := Some(UpgradeTarget(row).value))
  {
    var t :- UpgradeTarget(row);
    Success(row.(target := Some(t)))
  }

  /** One iteration of `downgrade`'s loop: the id columns of the tag are
      written back from the target; `target` itself is left in place. */
  function DowngradeRow(row: Row): (r: Result<Row, MigrationError>)
    ensures r.Failure? <==> row.target.None?
  {
    match row.target
    case None => Failure(NoTarget)
    case Some(t) =>
      Success(
        match t
        case QQGroup(g) => row.(groupId := Some(IntToString(g)))
        case QQGuildChannel(c) => row.(channelId := Some(IntToString(c)))
        case KaiheilaChannel(c) => row.(channelId := c)
        case TelegramCommon(chat) => row.(groupId := Some(StrOf(chat)), channelId := None)
        case TelegramForum(chat, thread) =>
          row.(guildId := Some(IntToString(chat)), channelId := Some(IntToString(thread)))
        case FeishuGroup(chat) => row.(groupId := chat)
        case UnknownOnebot12(p, _, g, gu, c) =>
          row.(platform := p, groupId := g, guildId := gu, channelId := c))
  }

  // ---------------------------------------------------------------------
  // What the per-row mapping does
  // ---------------------------------------------------------------------

  /** The tag each platform is mapped to. */
  lemma UpgradeTags(row: Row)
    requires UpgradeTarget(row).Success?
    ensures var tag := UpgradeTarget(row).value.PlatformType();
      && (row.platform == "qq" ==> tag == "QQ Group")
      && (row.platform == "qqguild" ==> tag == "QQ Guild Channel")
      && (row.platform == "kaiheila" ==> tag == "Kaiheila Channel")
      && (row.platform == "telegram" ==> (tag == "Telegram Common" <==> row.channelId.None?))
      && (row.platform == "telegram" ==> (tag == "Telegram Forum" <==> row.channelId.Some?))
      && (row.platform == "feishu" ==> tag == "Feishu Group")
      && (row.platform !in {"qq", "qqguild", "kaiheila", "telegram", "feishu"} ==> tag == "Unknow Onebot 12 Platform")
  {
  }

  /** The values stored beside the tag: converted ids for qq, qqguild and
      telegram forums; copied ids otherwise; the catch-all records the
      platform, all three ids, and "group" exactly when `group_id` is truthy. */
  lemma UpgradeValues(row: Row)
    requires UpgradeTarget(row).Success?
    ensures var t := UpgradeTarget(row).value;
      && (row.platform == "qq" ==> t == QQGroup(ParseDecimal(row.groupId.value).value))
      && (row.platform == "qqguild" ==> t == QQGuildChannel(ParseDecimal(row.channelId.value).value))
      && (row.platform == "kaiheila" ==> t == KaiheilaChannel(row.channelId))
      && (row.platform == "telegram" && row.channelId.None? ==> t == TelegramCommon(row.groupId))
      && (row.platform == "telegram" && row.channelId.Some? ==>
            t == TelegramForum(ParseDecimal(row.guildId.value).value, ParseDecimal(row.channelId.value).value))
      && (row.platform == "feishu" ==> t == FeishuGroup(row.groupId))
      && (t.UnknownOnebot12? ==>
            && t.sourcePlatform == row.platform
            && t.group == row.groupId && t.guild == row.guildId && t.channel == row.channelId
            && (t.detailType == "group" <==> (row.groupId.Some? && row.groupId.value != "")))
  {
  }

  /** `upgrade` raises on a row exactly when an `int()` it applies raises. */
  lemma UpgradeFails(row: Row)
    ensures UpgradeTarget(row).Failure? <==>
      || (row.platform == "qq" && !(row.groupId.Some? && ParseDecimal(row.groupId.value).Some?))
      || (row.platform == "qqguild" && !(row.channelId.Some? && ParseDecimal(row.channelId.value).Some?))
      || (row.platform == "telegram" && row.channelId.Some? &&
            !(row.guildId.Some? && ParseDecimal(row.guildId.value).Some?
              && ParseDecimal(row.channelId.value).Some?))
  {
  }

  /** `downgrade` touches only the columns of the target's tag. */
  lemma DowngradeWrites(row: Row)
    requires row.target.Some?
    ensures var r := DowngradeRow(row).value;
      && r.id == row.id && r.botId == row.botId && r.time == row.time && r.target == row.target
      && (r.platform != row.platform ==> row.target.value.UnknownOnebot12?)
      && (r.groupId != row.groupId ==>
            row.target.value.QQGroup? || row.target.value.TelegramCommon?
            || row.target.value.FeishuGroup? || row.target.value.UnknownOnebot12?)
      && (r.guildId != row.guildId ==> row.target.value.TelegramForum? || row.target.value.UnknownOnebot12?)
      && (r.channelId != row.channelId ==> !(row.target.value.QQGroup? || row.target.value.FeishuGroup?))
      && (row.target.value.TelegramCommon? ==> r.channelId == None)
  {
  }

  // ---------------------------------------------------------------------
  // Round trip
  // ---------------------------------------------------------------------

  /** The rows whose id columns `downgrade(upgrade(row))` gives back exactly:
      the ids passed through `int()` must be canonical decimals, and a
      telegram chat must have a `group_id` (`str(None)` is `"None"`). */
  predicate RestorableIds(row: Row) {
    if row.platform == "qq" then row.groupId.Some? && CanonicalDecimal(row.groupId.value)
    else if row.platform == "qqguild" then row.channelId.Some? && CanonicalDecimal(row.channelId.value)
    else if row.platform == "telegram" then
      if row.channelId.None? then row.groupId.Some?
      else row.guildId.Some? && CanonicalDecimal(row.guildId.value) && CanonicalDecimal(row.channelId.value)
    else true
  }

  /** `downgrade` after `upgrade` restores exactly the restorable rows, and
      otherwise leaves every column except `target` as the original. */
  lemma RoundTrip(row: Row)
    requires UpgradeRow(row).Success?
    ensures var up := UpgradeRow(row).value;
      DowngradeRow(up).Success? &&
      (DowngradeRow(up).value == up <==> RestorableIds(row))
  {
    var up := UpgradeRow(row).value;
    var down := DowngradeRow(up).value;
    if row.platform == "qq" {
      IntRoundTrip(row.groupId.value);
      if CanonicalDecimal(row.groupId.value) {
        assert down == up;
      } else {
        assert down.groupId != up.groupId;
      }
    } else if row.platform == "qqguild" {
      IntRoundTrip(row.channelId.value);
      if CanonicalDecimal(row.channelId.value) {
        assert down == up;
      } else {
        assert down.channelId != up.channelId;
      }
    } else if row.platform == "telegram" && row.channelId.Some? {
      IntRoundTrip(row.guildId.value);
      IntRoundTrip(row.channelId.value);
      if RestorableIds(row) {
        assert down == up;
      } else if !CanonicalDecimal(row.guildId.value) {
        assert down.guildId != up.guildId;
      } else {
        assert down.channelId != up.channelId;
      }
    } else if row.platform == "telegram" {
      if row.groupId.None? {
        assert down.groupId == Some("None");
      }
    }
  }

  /** A telegram chat without a `group_id` comes back with the literal
      string "None" as its `group_id`. */
  lemma TelegramNoneGroup(row: Row)
    requires row.platform == "telegram" && row.groupId.None? && row.channelId.None?
    ensures DowngradeRow(UpgradeRow(row).value).value.groupId == Some("None")
  {
  }

  /** A qq group id with a leading zero loses it: "007" comes back as "7". */
  lemma LeadingZeroNotRestored(row: Row)
    requires row.platform == "qq" && row.groupId == Some("007")
    ensures UpgradeRow(row).Success?
    ensures DowngradeRow(UpgradeRow(row).value).value.groupId == Some("7")
  {
    ParseLeadingZeros();
    assert UpgradeTarget(row) == Success(QQGroup(7));
    assert NatToString(7) == "7";
  }

  /** `int("007")` is 7. */
  lemma ParseLeadingZeros()
    ensures ParseDecimal("007") == Some(7)
  {
    ParseUnsigned("007");
    ValueOfLeadingZeros();
  }

  lemma ValueOfLeadingZeros()
    ensures DigitsValue("007") == 7
  {
    assert "007"[..2] == "00" && "00"[..1] == "0" && "0"[..0] == "";
  }

  // ---------------------------------------------------------------------
  // The whole table
  // ---------------------------------------------------------------------

  /** The loop of `upgrade` over all rows, stopping at the first row that raises. */
  function UpgradeAll(rows: seq<Row>): (r: Result<seq<Row>, MigrationError>)
    ensures r.Success? <==> forall i | 0 <= i < |rows| :: UpgradeRow(rows[i]).Success?
    ensures r.Success? ==>
      (|r.value| == |rows| && forall i | 0 <= i < |rows| :: r.value[i] == UpgradeRow(rows[i]).value)
  {
    if rows == [] then Success([])
    else
      var first :- UpgradeRow(rows[0]);
      var rest :- UpgradeAll(rows[1..]);
      assert forall i | 1 <= i < |rows| :: rows[1..][i - 1] == rows[i];
      Success([first] + rest)
  }

  /** The loop of `downgrade` over all rows, stopping at the first row that raises. */
  function DowngradeAll(rows: seq<Row>): (r: Result<seq<Row>, MigrationError>)
    ensures r.Success? <==> forall i | 0 <= i < |rows| :: rows[i].target.Some?
    ensures r.Success? ==>
      (|r.value| == |rows| && forall i | 0 <= i < |rows| :: r.value[i] == DowngradeRow(rows[i]).value)
  {
    if rows == [] then Success([])
    else
      var first :- DowngradeRow(rows[0]);
      var rest :- DowngradeAll(rows[1..]);
      assert forall i | 1 <= i < |rows| :: rows[1..][i - 1] == rows[i];
      Success([first] + rest)
  }

  /** After `upgrade`, every row has a target and keeps all its other columns. */
  lemma UpgradeAllTargets(rows: seq<Row>)
    requires UpgradeAll(rows).Success?
    ensures forall i | 0 <= i < |rows| ::
      UpgradeAll(rows).value[i].target.Some? &&
      UpgradeAll(rows).value[i] == rows[i].(target := UpgradeAll(rows).value[i].target)
  {
  }

  /** Migrating a table up and then down gives back every restorable row. */
  lemma TableRoundTrip(rows: seq<Row>)
    requires UpgradeAll(rows).Success?
    requires forall i | 0 <= i < |rows| :: RestorableIds(rows[i])
    ensures DowngradeAll(UpgradeAll(rows).value) == UpgradeAll(rows)
  {
    var up := UpgradeAll(rows).value;
    forall i | 0 <= i < |rows|
      ensures DowngradeRow(up[i]) == Success(up[i])
    {
      RoundTrip(rows[i]);
    }
    assert DowngradeAll(up).value == up;
  }

  /** The schedule table and the session the migration works through: rows
      are loaded, changed one by one, and written back only by the commit
      at the end. A row that raises ends the session without a commit. */
  class ScheduleTable {
    var rows: seq<Row>

    constructor (initial: seq<Row>)
      ensures rows == initial
    {
      rows := initial;
    }

    method Upgrade() returns (r: Result<(), MigrationError>)
      modifies this
      ensures r.Success? <==> UpgradeAll(old(rows)).Success?
      ensures rows == if r.Success? then UpgradeAll(old(rows)).value else old(rows)
    {
      var loaded := rows;
      var i := 0;
      while i < |loaded|
        invariant 0 <= i <= |loaded| == |rows|
        invariant forall k | 0 <= k < i :: UpgradeRow(rows[k]).Success? && loaded[k] == UpgradeRow(rows[k]).value
        invariant forall k | i <= k < |loaded| :: loaded[k] == rows[k]
      {
        assert loaded[i] == rows[i];
        var up := UpgradeRow(loaded[i]);
        if up.Failure? {
          return Failure(up.error);
        }
        ghost var before := loaded;
        loaded := loaded[i := up.value];
        assert forall k | 0 <= k < |loaded| && k != i :: loaded[k] == before[k];
        i := i + 1;
      }
      rows := loaded;
      return Success(());
    }

    method Downgrade() returns (r: Result<(), MigrationError>)
      modifies this
      ensures r.Success? <==> DowngradeAll(old(rows)).Success?
      ensures rows == if r.Success? then DowngradeAll(old(rows)).value else old(rows)
    {
      var loaded := rows;
      var i := 0;
      while i < |loaded|
        invariant 0 <= i <= |loaded| == |rows|
        invariant forall k | 0 <= k < i :: rows[k].target.Some? && loaded[k] == DowngradeRow(rows[k]).value
        invariant forall k | i <= k < |loaded| :: loaded[k] == rows[k]
      {
        assert loaded[i] == rows[i];
        var down := DowngradeRow(loaded[i]);
        if down.Failure? {
          return Failure(down.error);
        }
        ghost var before := loaded;
        loaded := loaded[i := down.value];
        assert forall k | 0 <= k < |loaded| && k != i :: loaded[k] == before[k];
        i := i + 1;
      }
      rows := loaded;
      return Success(());
    }
  }
}
