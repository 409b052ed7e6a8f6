/** The configuration reader (Config.cpp). */
module Configs {
  import opened Bytes
  import opened Text

  datatype LogLevel = ErrorLevel | NoticeLevel | DebugLevel

  datatype Settings = Settings(
    serverPort: uint32, logDir: string, connectString: string, connectionCount: uint16, logLevel: LogLevel,
    kafkaBroker: string, kafkaTopicSms: string, kafkaTopicCalls: string)

  const DEFAULTS := Settings(5300, "", "", 2, NoticeLevel, "", "", "")

  const OPTIONS: seq<string> := [
    "SERVER_PORT", "LOG_DIR", "CONNECT_STRING", "CONNECTION_COUNT", "LOG_LEVEL",
    "KAFKA_BROKER", "KAFKA_TOPIC_SMS", "KAFKA_TOPIC_CALLS"]

  const MIN_CONN_COUNT := 1
  const MAX_CONN_COUNT := 16

  // ---- scanning a line ----

  const BLANKS: string := " \t\r\n"
  const SEPARATORS: string := " \t="
  const ENDS: string := " \t#"

  /** The first position from `from` on whose character is, or is not, one of `chars`; `|line|` stands for npos. */
  function Find(line: string, chars: string, wanted: bool, from: nat): (r: nat)
    requires from <= |line|
    ensures from <= r <= |line|
    ensures forall i :: from <= i < r ==> (line[i] in chars) != wanted
    ensures r < |line| ==> (line[r] in chars) == wanted
    decreases |line| - from
  {
    if from == |line| || (line[from] in chars) == wanted then from else Find(line, chars, wanted, from + 1)
  }

  function UpperChar(c: char): char {
    if 'a' <= c <= 'z' then (c as int - 32) as char else c
  }

  function Upper(s: string): (r: string)
    ensures |r| == |s|
  {
    seq(|s|, i requires 0 <= i < |s| => UpperChar(s[i]))
  }

  datatype Content = Comment | Entry(name: string, value: string)

  /** How a line is taken apart. */
  function ContentOf(line: string): Content {
    var pos := Find(line, BLANKS, false, 0);
    if pos < |line| && (line[pos] == '#' || line[pos] == '\0') then Comment
    else
      var delim := Find(line, SEPARATORS, true, pos);
      var name := if delim < |line| then line[pos..delim] else line;
      var rest := line[Find(line, SEPARATORS, false, delim)..];
      Entry(Upper(name), rest[..Find(rest, ENDS, true, 0)])
  }

  // ---- values ----

  const SPACES: string := " \t\n\U{000B}\U{000C}\r"

  function DigitValue(c: char): nat {
    if '0' <= c <= '9' then c as int - '0' as int else 0
  }

  /** The number some digits write. */
  function NumberIn(digits: string): nat {
    if digits == "" then 0
    else 10 * NumberIn(digits[..|digits| - 1]) + DigitValue(digits[|digits| - 1])
  }

  datatype ULong = ULong(n: uint64) | NoNumber | OutOfRange

  /** std::stoul in base 10: leading white space, a sign and whatever follows the digits are allowed. */
  function StoUL(s: string): ULong {
    var start := Find(s, SPACES, false, 0);
    var signed := start < |s| && (s[start] == '+' || s[start] == '-');
    var first := if signed then start + 1 else start;
    var end := Find(s, DIGITS, false, first);
    if end == first then NoNumber
    else
      var n := NumberIn(s[first..end]);
      if n >= 0x1_0000_0000_0000_0000 then OutOfRange
      else ULong(if signed && s[start] == '-' && n > 0 then 0x1_0000_0000_0000_0000 - n else n)
  }

  function ParseULong(name: string, value: string): Result<uint64, string> {
    match StoUL(value)
    case ULong(n) => Success(n)
    case NoNumber => Failure("Wrong value given for numeric config parameter " + name)
    case OutOfRange => Failure("stoul")
  }

  datatype Value = Number(n: nat) | Text(s: string) | Level(level: LogLevel)

  /** What an option is set to by a value, converted to the type of its field. */
  function Converted(name: string, value: string): Result<Value, string> {
    if name == "SERVER_PORT" || name == "CONNECTION_COUNT" then
      match ParseULong(name, value)
      case Failure(e) => Failure(e)
      case Success(n) => Success(Number(if name == "SERVER_PORT" then n % 0x1_0000_0000 else n % 0x1_0000))
    else if name == "LOG_LEVEL" then
      if value == "error" then Success(Level(ErrorLevel))
      else if value == "notice" then Success(Level(NoticeLevel))
      else if value == "debug" then Success(Level(DebugLevel))
      else Failure("Wrong value passed for " + name + ".")
    else Success(Text(value))
  }

  /** The field an option names. */
  function Field(c: Settings, name: string): Value
    requires name in OPTIONS
  {
    if name == "SERVER_PORT" then Number(c.serverPort)
    else if name == "LOG_DIR" then Text(c.logDir)
    else if name == "CONNECT_STRING" then Text(c.connectString)
    else if name == "CONNECTION_COUNT" then Number(c.connectionCount)
    else if name == "LOG_LEVEL" then Level(c.logLevel)
    else if name == "KAFKA_BROKER" then Text(c.kafkaBroker)
    else if name == "KAFKA_TOPIC_SMS" then Text(c.kafkaTopicSms)
    else Text(c.kafkaTopicCalls)
  }

  /** The error a line stops the reader with, whatever was read before. */
  function LineError(line: string): Option<string> {
    match ContentOf(line)
    case Comment => None
    case Entry(name, value) =>
      if name == "" then None
      else if name !in OPTIONS then Some("Unknown parameter " + name + " found")
      else if Converted(name, value).Failure? then Some(Converted(name, value).error)
      else None
  }

  /** The value a line gives to the option. */
  function EntryOf(content: Content, name: string): Option<string> {
    if content.Entry? && content.name == name then Some(content.value) else None
  }

  /** The value of the last line that names the option. */
  function LastValue(lines: seq<string>, name: string): Option<string> {
    if lines == [] then None
    else
      var last := EntryOf(ContentOf(lines[|lines| - 1]), name);
      if last.Some? then last else LastValue(lines[..|lines| - 1], name)
  }

  /** `c` with every option some line names set as its last such line says. */
  ghost predicate Overridden(c: Settings, lines: seq<string>, c': Settings) {
    forall name :: name in OPTIONS ==>
      match LastValue(lines, name)
      case None => Field(c', name) == Field(c, name)
      case Some(v) => Converted(name, v) == Success(Field(c', name))
  }

  /** `c'` is `c` after one line. */
  ghost predicate LineSets(c: Settings, line: string, c': Settings) {
    LineError(line).None? && Overridden(c, [line], c')
  }

  lemma OverriddenSnoc(c: Settings, lines: seq<string>, mid: Settings, line: string, c': Settings)
    requires Overridden(c, lines, mid) && LineSets(mid, line, c')
    ensures Overridden(c, lines + [line], c')
  {
    hide ContentOf, Converted, Field, LineError;
    assert (lines + [line])[..|lines|] == lines;
    forall name | name in OPTIONS
      ensures match LastValue(lines + [line], name)
              case None => Field(c', name) == Field(c, name)
              case Some(v) => Converted(name, v) == Success(Field(c', name))
    {
      assert LastValue([line][..0], name) == None;
      assert [line][..0] == [];
    }
  }

  /** The old settings and the lines leave no choice. */
  lemma OverriddenDetermines(c: Settings, lines: seq<string>, c1: Settings, c2: Settings)
    requires Overridden(c, lines, c1) && Overridden(c, lines, c2)
    ensures c1 == c2
  {
    hide Converted, LastValue;
    forall k | 0 <= k < |OPTIONS| ensures Field(c1, OPTIONS[k]) == Field(c2, OPTIONS[k]) {
      hide Field;
      assert OPTIONS[k] in OPTIONS;
    }
    hide Overridden;
    assert Field(c1, OPTIONS[0]) == Field(c2, OPTIONS[0]) && Field(c1, OPTIONS[1]) == Field(c2, OPTIONS[1]);
    assert Field(c1, OPTIONS[2]) == Field(c2, OPTIONS[2]) && Field(c1, OPTIONS[3]) == Field(c2, OPTIONS[3]);
    assert Field(c1, OPTIONS[4]) == Field(c2, OPTIONS[4]) && Field(c1, OPTIONS[5]) == Field(c2, OPTIONS[5]);
    assert Field(c1, OPTIONS[6]) == Field(c2, OPTIONS[6]) && Field(c1, OPTIONS[7]) == Field(c2, OPTIONS[7]);
  }

  class Config {
    var serverPort: uint32
    var logDir: string
    var connectString: string
    var connectionCount: uint16
    var logLevel: LogLevel
    var kafkaBroker: string
    var kafkaTopicSms: string
    var kafkaTopicCalls: string

    function View(): Settings
      reads this
    {
      Settings(serverPort, logDir, connectString, connectionCount, logLevel, kafkaBroker, kafkaTopicSms,
               kafkaTopicCalls)
    }

    constructor ()
      ensures View() == DEFAULTS == Settings(5300, "", "", 2, NoticeLevel, "", "", "")
    {
      serverPort, connectionCount, logLevel := 5300, 2, NoticeLevel;
      logDir, connectString, kafkaBroker, kafkaTopicSms, kafkaTopicCalls := "", "", "", "", "";
    }

    /** One turn of the loop, behind the scanning. */
    method SetOption(name: string, value: string) returns (error: Option<string>)
      modifies this
      ensures error.Some? <==> name != "" && (name !in OPTIONS || Converted(name, value).Failure?)
      ensures error.Some? ==>
                View() == old(View())
                && error.value == if name !in OPTIONS then "Unknown parameter " + name + " found"
                                  else Converted(name, value).error
      ensures error.None? ==> forall o :: o in OPTIONS ==>
                if o == name then Converted(name, value) == Success(Field(View(), o))
                else Field(View(), o) == Field(old(View()), o)
      ensures name == "LOG_DIR" ==> View() == old(View()).(logDir := value)
      ensures name == "CONNECT_STRING" ==> View() == old(View()).(connectString := value)
      ensures name == "KAFKA_BROKER" ==> View() == old(View()).(kafkaBroker := value)
      ensures name == "KAFKA_TOPIC_SMS" ==> View() == old(View()).(kafkaTopicSms := value)
      ensures name == "KAFKA_TOPIC_CALLS" ==> View() == old(View()).(kafkaTopicCalls := value)
      ensures name == "LOG_LEVEL" ==> (error.None? <==> value == "error" || value == "notice" || value == "debug")
      ensures name == "LOG_LEVEL" && error.None? ==>
                View() == old(View()).(logLevel := if value == "error" then ErrorLevel
                                                   else if value == "notice" then NoticeLevel else DebugLevel)
      ensures name == "SERVER_PORT" || name == "CONNECTION_COUNT" ==> (error.None? <==> StoUL(value).ULong?)
      ensures name == "SERVER_PORT" && error.None? ==>
                View() == old(View()).(serverPort := StoUL(value).n % 0x1_0000_0000)
      ensures name == "CONNECTION_COUNT" && error.None? ==>
                View() == old(View()).(connectionCount := StoUL(value).n % 0x1_0000)
    {
      hide StoUL;
      error := None;
      if name == "SERVER_PORT" {
        match ParseULong(name, value)
        case Success(n) => serverPort := n % 0x1_0000_0000;
        case Failure(e) => error := Some(e);
      } else if name == "LOG_DIR" {
        logDir := value;
      } else if name == "CONNECT_STRING" {
        connectString := value;
      } else if name == "CONNECTION_COUNT" {
        match ParseULong(name, value)
        case Success(n) => connectionCount := n % 0x1_0000;
        case Failure(e) => error := Some(e);
      } else if name == "LOG_LEVEL" {
        if value == "error" {
          logLevel := ErrorLevel;
        } else if value == "notice" {
          logLevel := NoticeLevel;
        } else if value == "debug" {
          logLevel := DebugLevel;
        } else {
          error := Some("Wrong value passed for " + name + ".");
        }
      } else if name == "KAFKA_BROKER" {
        kafkaBroker := value;
      } else if name == "KAFKA_TOPIC_SMS" {
        kafkaTopicSms := value;
      } else if name == "KAFKA_TOPIC_CALLS" {
        kafkaTopicCalls := value;
      } else if name != "" {
        error := Some("Unknown parameter " + name + " found");
      }
    }

    /**
     Over a file without a bad line, the settings are the old ones overridden by the last line naming each
     option; a bad line stops the reader with its error, and the lines before it have been read.
     */
    method ReadConfigFile(lines: seq<string>) returns (error: Option<string>, read: nat)
      modifies this
      ensures read <= |lines| && forall i :: 0 <= i < read ==> LineError(lines[i]).None?
      ensures error.None? ==> read == |lines|
      ensures error.Some? ==> read < |lines| && LineError(lines[read]) == error
      ensures Overridden(old(View()), lines[..read], View())
    {
      hide LineSets, Field, LineError, Overridden, ContentOf;
      read := 0;
      NoLines(View());
      while read < |lines|
        invariant read <= |lines| && forall i :: 0 <= i < read ==> LineError(lines[i]).None?
        invariant Overridden(old(View()), lines[..read], View())
      {
        ghost var before := View();
        error := ReadLine(lines[read]);
        if error.Some? {
          return;
        }
        OverriddenSnoc(old(View()), lines[..read], before, lines[read], View());
        assert lines[..read + 1] == lines[..read] + [lines[read]];
        LineSetsNoError(before, lines[read], View());
        read := read + 1;
      }
      error := None;
    }

    /** The scanning of one line. */
    static method TakeApart(line: string) returns (content: Content)
      ensures content == ContentOf(line)
    {
      hide Upper, BLANKS, SEPARATORS, ENDS;
      var pos := Find(line, BLANKS, false, 0);
      if pos < |line| && (line[pos] == '#' || line[pos] == '\0') {
        return Comment;
      }
      var delim := Find(line, SEPARATORS, true, pos);
      var name := if delim < |line| then line[pos..delim] else line;
      name := Upper(name);
      var valuePos := Find(line, SEPARATORS, false, delim);
      var value := "";
      if valuePos < |line| {
        value := line[valuePos..];
        var commentPos := Find(value, ENDS, true, 0);
        if commentPos < |value| {
          value := value[..commentPos];
        }
      }
      content := Entry(name, value);
    }

    method ReadLine(line: string) returns (error: Option<string>)
      modifies this
      ensures error == LineError(line)
      ensures error.Some? ==> View() == old(View())
      ensures error.None? ==> LineSets(old(View()), line, View())
    {
      var content := TakeApart(line);
      OneLine(line);
      NoEmptyOption();
      hide ContentOf, Converted, Field, OPTIONS, StoUL, DEFAULTS;
      if content.Comment? {
        return None;
      }
      error := SetOption(content.name, content.value);
    }

    method ValidateParams() returns (error: Option<string>)
      ensures error.None? <==> Usable(View())
      ensures connectString == "" ==> error == Some("CONNECT_STRING parameter is not set.")
      ensures error.Some? && connectString != "" ==>
                error.value == "CONNECTION_COUNT must have value from " + Decimal(1) + " to " + Decimal(16)
    {
      if connectString == "" {
        return Some("CONNECT_STRING parameter is not set.");
      }
      if !(connectionCount >= MIN_CONN_COUNT && connectionCount <= MAX_CONN_COUNT) {
        return Some("CONNECTION_COUNT must have value from " + Decimal(MIN_CONN_COUNT) + " to "
                    + Decimal(MAX_CONN_COUNT));
      }
      error := None;
    }
  }

  predicate Usable(c: Settings) {
    c.connectString != "" && 1 <= c.connectionCount <= 16
  }

  lemma NoLines(c: Settings)
    ensures Overridden(c, [], c)
  {
  }

  lemma NoEmptyOption()
    ensures "" !in OPTIONS
  {
  }

  lemma OneLine(line: string)
    ensures forall name :: LastValue([line], name) == EntryOf(ContentOf(line), name)
  {
    hide ContentOf;
    assert [line][..0] == [];
  }

  lemma LineSetsNoError(c: Settings, line: string, c': Settings)
    requires LineSets(c, line, c')
    ensures LineError(line).None?
  {
  }

  // ---- what a well-formed line says ----

  predicate AllIn(s: string, chars: string) { forall c :: c in s ==> c in chars }

  predicate NoneIn(s: string, chars: string) { forall c :: c in s ==> c !in chars }

  /** A search that passes over `a` and stops at `b`. */
  lemma FindBehind(front: string, a: string, b: string, chars: string, wanted: bool)
    requires if wanted then NoneIn(a, chars) else AllIn(a, chars)
    requires b == "" || (b[0] in chars) == wanted
    ensures Find(front + a + b, chars, wanted, |front|) == |front| + |a|
  {
    var line, r := front + a + b, Find(front + a + b, chars, wanted, |front|);
    assert forall i :: |front| <= i < |front| + |a| ==> line[i] == a[i - |front|] && line[i] in a;
    assert b != "" ==> line[|front| + |a|] == b[0];
  }

  /** A value, and what may stand behind it. */
  predicate ValueAndComment(value: string, comment: string) {
    && NoneIn(value, ENDS) && (value != "" ==> value[0] != '=')
    && (comment == "" || comment[0] == '#' || (value != "" && comment[0] in ENDS))
  }

  lemma EntryLine(blanks: string, name: string, separators: string, value: string, comment: string)
    requires AllIn(blanks, BLANKS) && AllIn(separators, SEPARATORS) && separators != ""
    requires name != "" && NoneIn(name, SEPARATORS) && name[0] !in BLANKS && name[0] != '#' && name[0] != '\0'
    requires ValueAndComment(value, comment)
    ensures ContentOf(blanks + name + separators + value + comment) == Entry(Upper(name), value)
  {
    hide *;
    var line, rest := blanks + name + separators + value + comment, value + comment;
    BehindSeparators(value, comment);
    LineParts(blanks, name, separators, value, comment);
    EntryAt(line, blanks, name, separators, value, rest);
  }

  /** The line consists of these parts, and the rest behind the separators begins with the value. */
  predicate Divided(line: string, blanks: string, name: string, separators: string, value: string, rest: string) {
    var delim := |blanks| + |name|;
    var start := delim + |separators|;
    && start <= |line| && line[..|blanks|] == blanks && line[|blanks|..delim] == name
    && line[delim..start] == separators && line[start..] == rest
    && |value| <= |rest| && rest[..|value|] == value
  }

  lemma EntryAt(line: string, blanks: string, name: string, separators: string, value: string, rest: string)
    requires Divided(line, blanks, name, separators, value, rest)
    requires AllIn(blanks, BLANKS) && AllIn(separators, SEPARATORS) && separators != ""
    requires name != "" && NoneIn(name, SEPARATORS) && name[0] !in BLANKS && name[0] != '#' && name[0] != '\0'
    requires rest != "" ==> rest[0] !in SEPARATORS
    requires NoneIn(value, ENDS) && (|value| < |rest| ==> rest[|value|] in ENDS)
    ensures ContentOf(line) == Entry(Upper(name), value)
  {
    InFront(separators, SEPARATORS);
    var delim := |blanks| + |name|;
    var start := delim + |separators|;
    assert line[|blanks|..delim][0] == line[|blanks|] && line[delim..start][0] == line[delim];
    assert start < |line| ==> line[start..][0] == line[start];
    hide AllIn, NoneIn, ContentOf, Upper, BLANKS, SEPARATORS, ENDS;
    CutAt(line, |blanks|, delim, start, |value|);
  }

  lemma BehindSeparators(value: string, comment: string)
    requires ValueAndComment(value, comment)
    ensures var rest := value + comment;
            && (rest != "" ==> rest[0] !in SEPARATORS)
            && NoneIn(value, ENDS) && (|value| < |rest| ==> rest[|value|] in ENDS)
  {
    assert value != "" ==> value[0] in value && (value + comment)[0] == value[0];
  }

  /** A search that passes over `line[from..to]` and stops. */
  lemma FindFrom(line: string, from: nat, to: nat, chars: string, wanted: bool)
    requires from <= to <= |line|
    requires if wanted then NoneIn(line[from..to], chars) else AllIn(line[from..to], chars)
    requires to < |line| ==> (line[to] in chars) == wanted
    ensures Find(line, chars, wanted, from) == to
  {
    assert forall i :: from <= i < to ==> line[i] == line[from..to][i - from] && line[i] in line[from..to];
  }

  /** A line whose scans stop at these positions. */
  lemma CutAt(line: string, pos: nat, delim: nat, start: nat, len: nat)
    requires pos < delim < start <= start + len <= |line|
    requires AllIn(line[..pos], BLANKS) && line[pos] !in BLANKS && line[pos] != '#' && line[pos] != '\0'
    requires NoneIn(line[pos..delim], SEPARATORS) && line[delim] in SEPARATORS
    requires AllIn(line[delim..start], SEPARATORS) && (start < |line| ==> line[start] !in SEPARATORS)
    requires NoneIn(line[start..][..len], ENDS) && (start + len < |line| ==> line[start..][len] in ENDS)
    ensures ContentOf(line) == Entry(Upper(line[pos..delim]), line[start..][..len])
  {
    hide Find, Upper, AllIn, NoneIn;
    assert line[..pos] == line[0..pos] && line[start..][..len] == line[start..][0..len];
    FindFrom(line, 0, pos, BLANKS, false);
    FindFrom(line, pos, delim, SEPARATORS, true);
    FindFrom(line, delim, start, SEPARATORS, false);
    FindFrom(line[start..], 0, len, ENDS, true);
  }

  lemma LineParts(blanks: string, name: string, separators: string, value: string, comment: string)
    ensures Divided(blanks + name + separators + value + comment, blanks, name, separators, value, value + comment)
  {
    assert blanks + name + separators + value + comment == blanks + name + separators + (value + comment);
  }

  /** Letters of either case and underscores, as in the names of the options. */
  lemma OptionNameChars(name: string)
    requires Upper(name) in OPTIONS
    ensures name != "" && NoneIn(name, " \t=\r\n#\0")
  {
    var k :| 0 <= k < |OPTIONS| && OPTIONS[k] == Upper(name);
    OptionChars(k);
    forall i | 0 <= i < |name| ensures name[i] !in " \t=\r\n#\0" {
      assert Upper(name)[i] == UpperChar(name[i]);
    }
  }

  lemma OptionChars(k: nat)
    requires k < |OPTIONS|
    ensures OPTIONS[k] != ""
    ensures forall i :: 0 <= i < |OPTIONS[k]| ==> 'A' <= OPTIONS[k][i] <= 'Z' || OPTIONS[k][i] == '_'
  {
  }

  /**
   An option name in any letter case behind any blanks, any non-empty run of separators, a value and any
   comment: the line sets exactly that option to exactly that value, or fails if the value does not convert.
   */
  lemma OptionLine(blanks: string, name: string, separators: string, value: string, comment: string,
                   c: Settings, c': Settings)
    requires AllIn(blanks, BLANKS) && AllIn(separators, SEPARATORS) && separators != ""
    requires Upper(name) in OPTIONS && ValueAndComment(value, comment)
    ensures var line := blanks + name + separators + value + comment;
            && (LineError(line).None? <==> Converted(Upper(name), value).Success?)
            && (LineSets(c, line, c') <==>
                  && Converted(Upper(name), value) == Success(Field(c', Upper(name)))
                  && forall o :: o in OPTIONS && o != Upper(name) ==> Field(c', o) == Field(c, o))
  {
    OptionNameChars(name);
    assert name[0] in name;
    assert forall ch :: ch in SEPARATORS || ch in BLANKS ==> ch in " \t=\r\n#\0";
    EntryLine(blanks, name, separators, value, comment);
    var line := blanks + name + separators + value + comment;
    OneLine(line);
    NoEmptyOption();
    hide ContentOf, Converted, Field, OPTIONS;
  }

  /**
   An option name with no separator behind it: the whole line, blanks in front included, is taken for the
   name. So the line is accepted if and only if nothing stands in front and the option takes an empty value.
   */
  lemma BareLine(blanks: string, name: string)
    requires AllIn(blanks, BLANKS) && Upper(name) in OPTIONS
    ensures ContentOf(blanks + name) == Entry(Upper(blanks + name), "")
    ensures LineError(blanks + name).None? <==> blanks == "" && Converted(Upper(name), "").Success?
  {
    var line := blanks + name;
    hide *;
    OptionNameChars(name);
    NameFront(name);
    assert line == "" + blanks + name && line == blanks + name + "";
    FindBehind("", blanks, name, BLANKS, false);
    FindBehind(blanks, name, "", SEPARATORS, true);
    WholeLine(line, |blanks|);
    if blanks == "" {
      assert line == name;
    } else {
      InFront(blanks, BLANKS);
      IndentedIsUnknown(line);
    }
    BareError(line);
  }

  lemma InFront(s: string, chars: string)
    requires s != "" && AllIn(s, chars)
    ensures s[0] in chars
  {
    assert s[0] in s;
  }

  lemma NameFront(name: string)
    requires name != "" && NoneIn(name, " \t=\r\n#\0")
    ensures NoneIn(name, SEPARATORS) && name[0] !in BLANKS && name[0] != '#' && name[0] != '\0'
  {
    assert name[0] in name;
    assert forall ch :: ch in SEPARATORS || ch in BLANKS ==> ch in " \t=\r\n#\0";
  }

  /** No separator behind the blanks. */
  lemma WholeLine(line: string, pos: nat)
    requires Find(line, BLANKS, false, 0) == pos < |line| && line[pos] != '#' && line[pos] != '\0'
    requires Find(line, SEPARATORS, true, pos) == |line|
    ensures ContentOf(line) == Entry(Upper(line), "")
  {
    assert Find(line, SEPARATORS, false, |line|) == |line| && line[|line|..] == "";
    assert Find("", ENDS, true, 0) == 0;
    hide Find, Upper;
  }

  lemma BareError(line: string)
    requires ContentOf(line) == Entry(Upper(line), "")
    ensures Upper(line) in OPTIONS ==> (LineError(line).None? <==> Converted(Upper(line), "").Success?)
    ensures Upper(line) !in OPTIONS && line != "" ==> LineError(line).Some?
  {
    NoEmptyOption();
    hide ContentOf, OPTIONS, Converted;
  }

  lemma IndentedIsUnknown(line: string)
    requires line != "" && line[0] in BLANKS
    ensures Upper(line) !in OPTIONS
  {
    assert line[0] in line;
    if Upper(line) in OPTIONS {
      OptionNameChars(line);
    }
  }

  /** One such line: it sets LOG_DIR to the empty text, and is refused as soon as it is indented. */
  lemma IndentedLine()
    ensures LineError("LOG_DIR") == None
    ensures LineError(" LOG_DIR") == Some("Unknown parameter " + " LOG_DIR" + " found")
  {
    UpperLogDir();
    hide *;
    BareLine("", "LOG_DIR");
    BareLine(" ", "LOG_DIR");
    IndentedIsUnknown(" LOG_DIR");
    assert "" + "LOG_DIR" == "LOG_DIR" && " " + "LOG_DIR" == " LOG_DIR";
    UnknownOption(" LOG_DIR");
  }

  lemma UpperLogDir()
    ensures Upper("LOG_DIR") == "LOG_DIR" && Upper("LOG_DIR") in OPTIONS
    ensures Upper(" LOG_DIR") == " LOG_DIR"
    ensures AllIn("", BLANKS) && AllIn(" ", BLANKS) && " LOG_DIR"[0] in BLANKS
    ensures Converted("LOG_DIR", "").Success?
  {
    assert OPTIONS[1] == "LOG_DIR";
    assert BLANKS[0] == ' ';
  }

  lemma UnknownOption(line: string)
    requires ContentOf(line) == Entry(line, "") && line != "" && line !in OPTIONS
    ensures LineError(line) == Some("Unknown parameter " + line + " found")
  {
    hide ContentOf, OPTIONS;
  }

  /** A line of blanks only is refused, except the empty line. */
  lemma BlankLine(line: string)
    requires AllIn(line, BLANKS)
    ensures LineError(line).None? <==> line == ""
  {
    assert "" + line + "" == line;
    FindBehind("", line, "", BLANKS, false);
    if line != "" {
      assert line[0] in line;
      assert ContentOf(line) == Entry(Upper(line), "");
      hide ContentOf;
      if Upper(line) in OPTIONS {
        OptionNameChars(line);
      }
    }
  }

  // ---- numbers ----

  lemma {:induction false} DecimalDigits(n: nat)
    ensures AllIn(Decimal(n), DIGITS) && NumberIn(Decimal(n)) == n
  {
    assert forall d :: 0 <= d < 10 ==> DIGITS[d] in DIGITS && DigitValue(DIGITS[d]) == d;
    if n >= 10 {
      DecimalDigits(n / 10);
      assert Decimal(n)[..|Decimal(n)| - 1] == Decimal(n / 10);
    }
  }

  /** Digits alone are read as the number they write, if it is one. */
  lemma StoULOfDigits(s: string)
    requires s != "" && AllIn(s, DIGITS)
    ensures StoUL(s) == if NumberIn(s) < 0x1_0000_0000_0000_0000 then ULong(NumberIn(s)) else OutOfRange
  {
    assert s[0] in s;
    DigitChar(s[0]);
    assert AllIn("", SPACES);
    hide *;
    assert s == "" + "" + s && s == "" + s + "";
    FindBehind("", "", s, SPACES, false);
    FindBehind("", s, "", DIGITS, false);
    StoULFrom(s);
  }

  lemma StoULFrom(s: string)
    requires s != "" && Find(s, SPACES, false, 0) == 0 && s[0] != '+' && s[0] != '-' && Find(s, DIGITS, false, 0) == |s|
    ensures StoUL(s) == if NumberIn(s) < 0x1_0000_0000_0000_0000 then ULong(NumberIn(s)) else OutOfRange
  {
    hide *;
    StoULCut(s, |s|);
    assert s[0..|s|] == s;
  }

  /** Digits in front, and whatever follows them. */
  lemma StoULCut(s: string, end: int)
    requires s != "" && Find(s, SPACES, false, 0) == 0 && s[0] != '+' && s[0] != '-' && Find(s, DIGITS, false, 0) == end
    ensures 0 <= end <= |s|
    ensures end > 0 ==>
              var v := NumberIn(s[0..end]);
              StoUL(s) == if v < 0x1_0000_0000_0000_0000 then ULong(v) else OutOfRange
  {
    hide Find, NumberIn, DIGITS, SPACES;
  }

  lemma DigitChar(c: char)
    requires c in DIGITS
    ensures c !in SPACES && c != '+' && c != '-'
  {
  }

  /** A decimal number is read back, reduced to the width of its field. */
  lemma NumberRoundTrip(n: uint64)
    ensures Converted("SERVER_PORT", Decimal(n)) == Success(Number(n % 0x1_0000_0000))
    ensures Converted("CONNECTION_COUNT", Decimal(n)) == Success(Number(n % 0x1_0000))
  {
    DecimalDigits(n);
    StoULOfDigits(Decimal(n));
    hide StoUL, Decimal, NumberIn;
  }
}
