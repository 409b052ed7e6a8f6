/** A line of the configuration file, with its characters, its letter case and the eight options written out. */
module ConfigLines {
  import opened Bytes
  import opened Text
  import opened Configs

  predicate Blank(c: char) { c == ' ' || c == '\t' || c == '\r' || c == '\n' }

  predicate Separator(c: char) { c == ' ' || c == '\t' || c == '=' }

  predicate End(c: char) { c == ' ' || c == '\t' || c == '#' }

  /** The letters of an option, each in either case, and its underscores. */
  predicate SameLetters(name: string, option: string) {
    && |name| == |option|
    && forall i :: 0 <= i < |name| ==>
         name[i] == option[i] || ('A' <= option[i] <= 'Z' && name[i] as int == option[i] as int + 32)
  }

  /** Blanks, an option, a run of separators, a value, and possibly a comment. */
  predicate WellFormed(blanks: string, name: string, option: string, separators: string, value: string,
                       comment: string)
  {
    && (forall i :: 0 <= i < |blanks| ==> Blank(blanks[i]))
    && SameLetters(name, option)
    && separators != "" && (forall i :: 0 <= i < |separators| ==> Separator(separators[i]))
    && (forall i :: 0 <= i < |value| ==> !End(value[i])) && (value != "" ==> value[0] != '=')
    && (comment == "" || comment[0] == '#' || (value != "" && End(comment[0])))
  }

  lemma ClassesAre(c: char)
    ensures c in BLANKS <==> Blank(c)
    ensures c in SEPARATORS <==> Separator(c)
    ensures c in ENDS <==> End(c)
  {
    assert BLANKS == [' ', '\t', '\r', '\n'] && SEPARATORS == [' ', '\t', '='] && ENDS == [' ', '\t', '#'];
  }

  lemma {:induction false} LettersAre(name: string, option: string)
    requires SameLetters(name, option)
    requires forall i :: 0 <= i < |option| ==> 'A' <= option[i] <= 'Z' || option[i] == '_'
    ensures Upper(name) == option
  {
    forall i | 0 <= i < |name| ensures Upper(name)[i] == option[i] {
      assert option[i] == '_' || 'A' <= option[i] <= 'Z';
    }
  }

  lemma AllBlank(s: string)
    requires forall i :: 0 <= i < |s| ==> Blank(s[i])
    ensures AllIn(s, BLANKS)
  {
    forall c | c in s ensures c in BLANKS { ClassesAre(c); }
  }

  lemma AllSeparators(s: string)
    requires forall i :: 0 <= i < |s| ==> Separator(s[i])
    ensures AllIn(s, SEPARATORS)
  {
    forall c | c in s ensures c in SEPARATORS { ClassesAre(c); }
  }

  lemma NoEnds(s: string)
    requires forall i :: 0 <= i < |s| ==> !End(s[i])
    ensures NoneIn(s, ENDS)
  {
    forall c | c in s ensures c !in ENDS { ClassesAre(c); }
  }

  lemma ValueIs(value: string, comment: string)
    requires (forall i :: 0 <= i < |value| ==> !End(value[i])) && (value != "" ==> value[0] != '=')
    requires comment == "" || comment[0] == '#' || (value != "" && End(comment[0]))
    ensures ValueAndComment(value, comment)
  {
    NoEnds(value);
    if comment != "" { ClassesAre(comment[0]); }
    hide NoneIn, ENDS, End;
  }

  /** A well-formed line sets its option, or fails to convert. */
  lemma NamesOption(blanks: string, name: string, option: string, separators: string, value: string, comment: string,
                    c: Settings, c': Settings)
    requires WellFormed(blanks, name, option, separators, value, comment) && option in OPTIONS
    ensures var line := blanks + name + separators + value + comment;
            && LineError(line) == (if Converted(option, value).Failure? then Some(Converted(option, value).error)
                                   else None)
            && (LineSets(c, line, c') <==> Sets(c, option, value, c'))
  {
    OptionOf(option);
    LettersAre(name, option);
    hide *;
    WellFormedParts(blanks, name, option, separators, value, comment);
    AllBlank(blanks);
    AllSeparators(separators);
    ValueIs(value, comment);
    OptionLine(blanks, name, separators, value, comment, c, c');
    OptionError(blanks, name, option, separators, value, comment);
    SetsMeans(c, option, value, c');
  }

  lemma WellFormedParts(blanks: string, name: string, option: string, separators: string, value: string,
                        comment: string)
    requires WellFormed(blanks, name, option, separators, value, comment)
    ensures forall i :: 0 <= i < |blanks| ==> Blank(blanks[i])
    ensures separators != "" && forall i :: 0 <= i < |separators| ==> Separator(separators[i])
    ensures (forall i :: 0 <= i < |value| ==> !End(value[i])) && (value != "" ==> value[0] != '=')
    ensures comment == "" || comment[0] == '#' || (value != "" && End(comment[0]))
  {
  }

  lemma OptionOf(option: string)
    requires option in OPTIONS
    ensures forall i :: 0 <= i < |option| ==> 'A' <= option[i] <= 'Z' || option[i] == '_'
  {
    var k :| 0 <= k < |OPTIONS| && OPTIONS[k] == option;
    OptionChars(k);
  }

  lemma OptionError(blanks: string, name: string, option: string, separators: string, value: string, comment: string)
    requires AllIn(blanks, BLANKS) && AllIn(separators, SEPARATORS) && separators != ""
    requires Upper(name) == option && option in OPTIONS && ValueAndComment(value, comment)
    ensures LineError(blanks + name + separators + value + comment)
         == if Converted(option, value).Failure? then Some(Converted(option, value).error) else None
  {
    hide *;
    OptionNameChars(name);
    NameFront(name);
    EntryLine(blanks, name, separators, value, comment);
    EntryError(blanks + name + separators + value + comment, option, value);
  }

  lemma EntryError(line: string, option: string, value: string)
    requires ContentOf(line) == Entry(option, value) && option in OPTIONS
    ensures LineError(line) == if Converted(option, value).Failure? then Some(Converted(option, value).error) else None
  {
    NoEmptyOption();
    hide ContentOf, Converted, OPTIONS;
  }

  /** `c'` is `c` with this option set to this value. */
  ghost predicate Sets(c: Settings, option: string, value: string, c': Settings)
    requires option in OPTIONS
  {
    && Converted(option, value) == Success(Field(c', option))
    && forall o :: o in OPTIONS && o != option ==> Field(c', o) == Field(c, o)
  }

  lemma SetsMeans(c: Settings, option: string, value: string, c': Settings)
    requires option in OPTIONS
    ensures Sets(c, option, value, c') <==>
              && Converted(option, value) == Success(Field(c', option))
              && forall o :: o in OPTIONS && o != option ==> Field(c', o) == Field(c, o)
  {
  }

  /** The fields named but one. */
  predicate SameBut(c: Settings, c': Settings, option: string) {
    && (option != "SERVER_PORT" ==> c'.serverPort == c.serverPort)
    && (option != "LOG_DIR" ==> c'.logDir == c.logDir)
    && (option != "CONNECT_STRING" ==> c'.connectString == c.connectString)
    && (option != "CONNECTION_COUNT" ==> c'.connectionCount == c.connectionCount)
    && (option != "LOG_LEVEL" ==> c'.logLevel == c.logLevel)
    && (option != "KAFKA_BROKER" ==> c'.kafkaBroker == c.kafkaBroker)
    && (option != "KAFKA_TOPIC_SMS" ==> c'.kafkaTopicSms == c.kafkaTopicSms)
    && (option != "KAFKA_TOPIC_CALLS" ==> c'.kafkaTopicCalls == c.kafkaTopicCalls)
  }

  lemma EightOptions()
    ensures forall o :: o in OPTIONS <==>
              || o == "SERVER_PORT" || o == "LOG_DIR" || o == "CONNECT_STRING" || o == "CONNECTION_COUNT"
              || o == "LOG_LEVEL" || o == "KAFKA_BROKER" || o == "KAFKA_TOPIC_SMS" || o == "KAFKA_TOPIC_CALLS"
  {
    assert OPTIONS[0] == "SERVER_PORT" && OPTIONS[1] == "LOG_DIR" && OPTIONS[2] == "CONNECT_STRING";
    assert OPTIONS[3] == "CONNECTION_COUNT" && OPTIONS[4] == "LOG_LEVEL" && OPTIONS[5] == "KAFKA_BROKER";
    assert OPTIONS[6] == "KAFKA_TOPIC_SMS" && OPTIONS[7] == "KAFKA_TOPIC_CALLS";
  }

  lemma FieldsOf(c: Settings)
    ensures (forall o :: o in OPTIONS <==>
              || o == "SERVER_PORT" || o == "LOG_DIR" || o == "CONNECT_STRING" || o == "CONNECTION_COUNT"
              || o == "LOG_LEVEL" || o == "KAFKA_BROKER" || o == "KAFKA_TOPIC_SMS" || o == "KAFKA_TOPIC_CALLS")
    ensures Field(c, "SERVER_PORT") == Number(c.serverPort) && Field(c, "CONNECTION_COUNT") == Number(c.connectionCount)
    ensures Field(c, "LOG_DIR") == Value.Text(c.logDir) && Field(c, "CONNECT_STRING") == Value.Text(c.connectString)
    ensures Field(c, "KAFKA_BROKER") == Value.Text(c.kafkaBroker) && Field(c, "LOG_LEVEL") == Level(c.logLevel)
    ensures Field(c, "KAFKA_TOPIC_SMS") == Value.Text(c.kafkaTopicSms)
    ensures Field(c, "KAFKA_TOPIC_CALLS") == Value.Text(c.kafkaTopicCalls)
  {
    EightOptions();
    hide OPTIONS;
  }

  lemma OthersKept(c: Settings, c': Settings, option: string)
    requires option in OPTIONS
    ensures (forall o :: o in OPTIONS && o != option ==> Field(c', o) == Field(c, o)) <==> SameBut(c, c', option)
  {
    FieldsOf(c);
    FieldsOf(c');
    hide OPTIONS, Field;
  }

  // ---- the numbers ----

  predicate Space(c: char) {
    c == ' ' || c == '\t' || c == '\n' || c == '\U{000B}' || c == '\U{000C}' || c == '\r'
  }

  predicate Digit(c: char) { '0' <= c <= '9' }

  /** White space, a sign or none, digits, and what follows them. */
  predicate NumberParts(space: string, sign: string, digits: string, rest: string) {
    && (forall i :: 0 <= i < |space| ==> Space(space[i]))
    && (sign == "" || sign == "+" || sign == "-")
    && (forall i :: 0 <= i < |digits| ==> Digit(digits[i]))
    && (rest == "" || !Digit(rest[0]))
    && (sign == "" && digits == "" && rest != "" ==> !Space(rest[0]) && rest[0] != '+' && rest[0] != '-')
  }

  lemma DigitsAre(c: char)
    ensures c in DIGITS <==> Digit(c)
    ensures c in SPACES <==> Space(c)
  {
    assert DIGITS == ['0', '1', '2', '3', '4', '5', '6', '7', '8', '9'];
    assert SPACES == [' ', '\t', '\n', '\U{000B}', '\U{000C}', '\r'];
  }

  lemma SpacesIn(s: string)
    requires forall i :: 0 <= i < |s| ==> Space(s[i])
    ensures AllIn(s, SPACES)
  {
    forall c | c in s ensures c in SPACES { DigitsAre(c); }
  }

  lemma DigitsIn(s: string)
    requires forall i :: 0 <= i < |s| ==> Digit(s[i])
    ensures AllIn(s, DIGITS)
  {
    forall c | c in s ensures c in DIGITS { DigitsAre(c); }
  }

  /** Digits count by their place: the first one most. */
  lemma {:induction false} FirstDigit(s: string)
    requires s != "" && Digit(s[0])
    ensures NumberIn(s) == (s[0] as int - '0' as int) * Pow10(|s| - 1) + NumberIn(s[1..])
  {
    if |s| == 1 {
      assert s[..0] == "" && s[1..] == "";
    } else {
      var front := s[..|s| - 1];
      FirstDigit(front);
      assert s[1..][..|s| - 2] == front[1..];
      Tenfold(s[0] as int - '0' as int, Pow10(|s| - 2));
    }
  }

  lemma Tenfold(d: int, p: nat)
    ensures 10 * (d * p) == d * (10 * p)
  {
  }

  lemma PlaceValues()
    ensures Pow10(0) == 1 && Pow10(1) == 10 && Pow10(2) == 100 && Pow10(3) == 1000
    ensures NumberIn("") == 0 && NumberIn("5300") == 5300
  {
    var s := "5300";
    assert s[..3] == "530" && "530"[..2] == "53" && "53"[..1] == "5" && "5"[..0] == "";
    assert NumberIn("5") == 5;
    assert NumberIn("53") == 53;
    assert NumberIn("530") == 530;
    assert Pow10(2) == 10 * Pow10(1) && Pow10(3) == 10 * Pow10(2);
  }

  /** What stoul makes of a number: a minus wraps around, no digits is no number, and 2^64 is out of range. */
  lemma StoULMeans(space: string, sign: string, digits: string, rest: string)
    requires NumberParts(space, sign, digits, rest)
    ensures var n := NumberIn(digits);
            StoUL(space + sign + digits + rest) ==
            if digits == "" then NoNumber
            else if n >= 0x1_0000_0000_0000_0000 then OutOfRange
            else ULong(if sign == "-" then (0x1_0000_0000_0000_0000 - n) % 0x1_0000_0000_0000_0000 else n)
  {
    hide *;
    var s := space + sign + digits + rest;
    var start, first := |space|, |space| + |sign|;
    Places(space, sign, digits, rest);
    Stops(s, space, sign, digits, rest);
    StoULAt(s, start, first, first + |digits|);
    SignAt(s, space, sign, digits, rest);
  }

  lemma SignAt(s: string, space: string, sign: string, digits: string, rest: string)
    requires NumberAt(s, space, sign, digits, rest) && NumberParts(space, sign, digits, rest)
    ensures s[|space| + |sign|..|space| + |sign| + |digits|] == digits
    ensures |sign| > 0 && s[|space|] == '-' <==> sign == "-"
  {
  }

  /** The parts, by their positions. */
  predicate NumberAt(s: string, space: string, sign: string, digits: string, rest: string) {
    var first := |space| + |sign|;
    var end := first + |digits|;
    && |s| == end + |rest| && s[0..|space|] == space && s[first..end] == digits
    && (rest != "" ==> s[end] == rest[0])
    && (sign != "" ==> |sign| == 1 && s[|space|] == sign[0])
    && (|space| < |s| ==> !Space(s[|space|]))
    && ((|space| < |s| && (s[|space|] == '+' || s[|space|] == '-')) <==> sign != "")
  }

  lemma Stops(s: string, space: string, sign: string, digits: string, rest: string)
    requires NumberAt(s, space, sign, digits, rest) && NumberParts(space, sign, digits, rest)
    ensures var first := |space| + |sign|;
            && first + |digits| <= |s|
            && Find(s, SPACES, false, 0) == |space| && Find(s, DIGITS, false, first) == first + |digits|
            && first == if |space| < |s| && (s[|space|] == '+' || s[|space|] == '-') then |space| + 1 else |space|
  {
    hide *;
    var first := |space| + |sign|;
    RunsAt(s, space, sign, digits, rest);
    FindFrom(s, 0, |space|, SPACES, false);
    FindFrom(s, first, first + |digits|, DIGITS, false);
  }

  lemma RunsAt(s: string, space: string, sign: string, digits: string, rest: string)
    requires NumberAt(s, space, sign, digits, rest) && NumberParts(space, sign, digits, rest)
    ensures var first := |space| + |sign|;
            var end := first + |digits|;
            && end <= |s| && AllIn(s[0..|space|], SPACES) && AllIn(s[first..end], DIGITS)
            && (|space| < |s| ==> s[|space|] !in SPACES) && (end < |s| ==> s[end] !in DIGITS)
            && first == if |space| < |s| && (s[|space|] == '+' || s[|space|] == '-') then |space| + 1 else |space|
  {
    SpacesIn(space);
    DigitsIn(digits);
    if |space| < |s| { DigitsAre(s[|space|]); }
    if rest != "" { DigitsAre(rest[0]); }
    hide AllIn, SPACES, DIGITS, Space, Digit;
  }

  lemma BehindSpace(sign: string, digits: string, rest: string)
    requires NumberParts("", sign, digits, rest) && sign + digits + rest != ""
    ensures !Space((sign + digits + rest)[0])
    ensures sign == "" ==> (sign + digits + rest)[0] != '+' && (sign + digits + rest)[0] != '-'
  {
    var c := (sign + digits + rest)[0];
    if sign != "" {
      assert c == sign[0];
    } else if digits != "" {
      assert c == digits[0];
    } else {
      assert c == rest[0];
    }
  }

  lemma Places(space: string, sign: string, digits: string, rest: string)
    requires NumberParts(space, sign, digits, rest)
    ensures NumberAt(space + sign + digits + rest, space, sign, digits, rest)
  {
    var s, behind := space + sign + digits + rest, sign + digits + rest;
    assert s == space + behind;
    if behind != "" {
      BehindSpace(sign, digits, rest);
      assert s[|space|] == behind[0];
    }
    hide Space, Digit;
  }

  lemma StoULAt(s: string, start: nat, first: nat, end: nat)
    requires start <= first <= end <= |s|
    requires Find(s, SPACES, false, 0) == start && Find(s, DIGITS, false, first) == end
    requires first == if start < |s| && (s[start] == '+' || s[start] == '-') then start + 1 else start
    ensures var n := NumberIn(s[first..end]);
            StoUL(s) ==
            if first == end then NoNumber
            else if n >= 0x1_0000_0000_0000_0000 then OutOfRange
            else ULong(if first > start && s[start] == '-' then (0x1_0000_0000_0000_0000 - n) % 0x1_0000_0000_0000_0000
                       else n)
  {
    hide Find, NumberIn, DIGITS, SPACES;
  }

  // ---- the eight options ----

  /** Each of the five text options sets its own field to the value. */
  lemma TextLine(blanks: string, name: string, option: string, separators: string, value: string, comment: string,
                 c: Settings, c': Settings)
    requires WellFormed(blanks, name, option, separators, value, comment)
    ensures var line := blanks + name + separators + value + comment;
            && (option == "LOG_DIR" ==> (LineSets(c, line, c') <==> c' == c.(logDir := value)))
            && (option == "CONNECT_STRING" ==> (LineSets(c, line, c') <==> c' == c.(connectString := value)))
            && (option == "KAFKA_BROKER" ==> (LineSets(c, line, c') <==> c' == c.(kafkaBroker := value)))
            && (option == "KAFKA_TOPIC_SMS" ==> (LineSets(c, line, c') <==> c' == c.(kafkaTopicSms := value)))
            && (option == "KAFKA_TOPIC_CALLS" ==> (LineSets(c, line, c') <==> c' == c.(kafkaTopicCalls := value)))
            && ((option == "LOG_DIR" || option == "CONNECT_STRING" || option == "KAFKA_BROKER"
                 || option == "KAFKA_TOPIC_SMS" || option == "KAFKA_TOPIC_CALLS") ==> LineError(line) == None)
  {
    EightOptions();
    if option in OPTIONS {
      NamesOption(blanks, name, option, separators, value, comment, c, c');
      OthersKept(c, c', option);
      FieldsOf(c');
    }
    hide OPTIONS, WellFormed, LineSets, LineError, Field;
  }

  /** LOG_LEVEL knows three levels. */
  lemma LevelLine(blanks: string, name: string, separators: string, value: string, comment: string,
                  c: Settings, c': Settings)
    requires WellFormed(blanks, name, "LOG_LEVEL", separators, value, comment)
    ensures var line := blanks + name + separators + value + comment;
            && (value == "error" ==>
                  LineError(line) == None && (LineSets(c, line, c') <==> c' == c.(logLevel := ErrorLevel)))
            && (value == "notice" ==>
                  LineError(line) == None && (LineSets(c, line, c') <==> c' == c.(logLevel := NoticeLevel)))
            && (value == "debug" ==>
                  LineError(line) == None && (LineSets(c, line, c') <==> c' == c.(logLevel := DebugLevel)))
            && (value != "error" && value != "notice" && value != "debug" ==>
                  LineError(line) == Some("Wrong value passed for " + "LOG_LEVEL" + "."))
  {
    EightOptions();
    NamesOption(blanks, name, "LOG_LEVEL", separators, value, comment, c, c');
    OthersKept(c, c', "LOG_LEVEL");
    FieldsOf(c');
    hide OPTIONS, WellFormed, LineSets, LineError, Field;
  }

  /** SERVER_PORT and CONNECTION_COUNT take what stoul reads, reduced to 32 and to 16 bits. */
  lemma NumberLine(blanks: string, name: string, option: string, separators: string, comment: string,
                   space: string, sign: string, digits: string, rest: string, c: Settings, c': Settings)
    requires NumberParts(space, sign, digits, rest)
    requires WellFormed(blanks, name, option, separators, space + sign + digits + rest, comment)
    requires option == "SERVER_PORT" || option == "CONNECTION_COUNT"
    ensures var line := blanks + name + separators + (space + sign + digits + rest) + comment;
            var n := if sign == "-" then (0x1_0000_0000_0000_0000 - NumberIn(digits)) % 0x1_0000_0000_0000_0000
                     else NumberIn(digits);
            if digits == "" then LineError(line) == Some("Wrong value given for numeric config parameter " + option)
            else if NumberIn(digits) >= 0x1_0000_0000_0000_0000 then LineError(line) == Some("stoul")
            else
              && LineError(line) == None
              && (option == "SERVER_PORT" ==> (LineSets(c, line, c') <==> c' == c.(serverPort := n % 0x1_0000_0000)))
              && (option == "CONNECTION_COUNT" ==>
                    (LineSets(c, line, c') <==> c' == c.(connectionCount := n % 0x1_0000)))
  {
    var value := space + sign + digits + rest;
    StoULMeans(space, sign, digits, rest);
    EightOptions();
    NamesOption(blanks, name, option, separators, value, comment, c, c');
    OthersKept(c, c', option);
    FieldsOf(c');
    hide OPTIONS, WellFormed, LineSets, LineError, Field, StoUL, NumberIn, NumberParts;
  }

  // ---- a whole file ----

  /** The last line that names an option gives `v`; no line behind it names the option. */
  ghost predicate LastNamed(lines: seq<string>, option: string, v: string) {
    exists k :: 0 <= k < |lines| && ContentOf(lines[k]) == Entry(option, v)
                && forall j :: k < j < |lines| ==> !Names(lines[j], option)
  }

  predicate Names(line: string, option: string) {
    ContentOf(line).Entry? && ContentOf(line).name == option
  }

  lemma {:induction false} LastValueMeans(lines: seq<string>, option: string)
    ensures LastValue(lines, option).Some? ==> LastNamed(lines, option, LastValue(lines, option).value)
    ensures LastValue(lines, option).None? ==> forall k :: 0 <= k < |lines| ==> !Names(lines[k], option)
  {
    hide ContentOf;
    if lines != [] {
      var front, last := lines[..|lines| - 1], lines[|lines| - 1];
      LastValueMeans(front, option);
      if EntryOf(ContentOf(last), option).Some? {
        assert ContentOf(lines[|lines| - 1]) == Entry(option, LastValue(lines, option).value);
      } else if LastValue(front, option).Some? {
        var v := LastValue(front, option).value;
        var k :| 0 <= k < |front| && ContentOf(front[k]) == Entry(option, v)
                 && forall j :: k < j < |front| ==> !Names(front[j], option);
        assert ContentOf(lines[k]) == Entry(option, v);
        assert !Names(last, option);
        forall j | k < j < |lines| ensures !Names(lines[j], option) {
          if j < |front| { assert !Names(front[j], option); }
        }
      }
    }
  }

  function Given(v: Option<string>, otherwise: string): string {
    if v.Some? then v.value else otherwise
  }

  /** After a file, each setting is what the last line naming its option says, or what it was. */
  lemma FileSets(c: Settings, lines: seq<string>, c': Settings)
    requires Overridden(c, lines, c')
    ensures c'.logDir == Given(LastValue(lines, "LOG_DIR"), c.logDir)
    ensures c'.connectString == Given(LastValue(lines, "CONNECT_STRING"), c.connectString)
    ensures c'.kafkaBroker == Given(LastValue(lines, "KAFKA_BROKER"), c.kafkaBroker)
    ensures c'.kafkaTopicSms == Given(LastValue(lines, "KAFKA_TOPIC_SMS"), c.kafkaTopicSms)
    ensures c'.kafkaTopicCalls == Given(LastValue(lines, "KAFKA_TOPIC_CALLS"), c.kafkaTopicCalls)
    ensures match LastValue(lines, "SERVER_PORT")
            case None => c'.serverPort == c.serverPort
            case Some(v) => StoUL(v).ULong? && c'.serverPort == StoUL(v).n % 0x1_0000_0000
    ensures match LastValue(lines, "CONNECTION_COUNT")
            case None => c'.connectionCount == c.connectionCount
            case Some(v) => StoUL(v).ULong? && c'.connectionCount == StoUL(v).n % 0x1_0000
    ensures match LastValue(lines, "LOG_LEVEL")
            case None => c'.logLevel == c.logLevel
            case Some(v) =>
              || (v == "error" && c'.logLevel == ErrorLevel) || (v == "notice" && c'.logLevel == NoticeLevel)
              || (v == "debug" && c'.logLevel == DebugLevel)
  {
    FileSetsText(c, lines, c', "LOG_DIR");
    FileSetsText(c, lines, c', "CONNECT_STRING");
    FileSetsText(c, lines, c', "KAFKA_BROKER");
    FileSetsText(c, lines, c', "KAFKA_TOPIC_SMS");
    FileSetsText(c, lines, c', "KAFKA_TOPIC_CALLS");
    FileSetsNumber(c, lines, c');
    FieldsOf(c);
    FieldsOf(c');
    hide *;
  }

  lemma FileSetsNumber(c: Settings, lines: seq<string>, c': Settings)
    requires Overridden(c, lines, c')
    ensures match LastValue(lines, "SERVER_PORT")
            case None => c'.serverPort == c.serverPort
            case Some(v) => StoUL(v).ULong? && c'.serverPort == StoUL(v).n % 0x1_0000_0000
    ensures match LastValue(lines, "CONNECTION_COUNT")
            case None => c'.connectionCount == c.connectionCount
            case Some(v) => StoUL(v).ULong? && c'.connectionCount == StoUL(v).n % 0x1_0000
    ensures match LastValue(lines, "LOG_LEVEL")
            case None => c'.logLevel == c.logLevel
            case Some(v) =>
              || (v == "error" && c'.logLevel == ErrorLevel) || (v == "notice" && c'.logLevel == NoticeLevel)
              || (v == "debug" && c'.logLevel == DebugLevel)
  {
    FieldsOf(c);
    FieldsOf(c');
    hide LastValue, OPTIONS, Field, StoUL;
  }

  lemma FileSetsText(c: Settings, lines: seq<string>, c': Settings, option: string)
    requires Overridden(c, lines, c')
    requires || option == "LOG_DIR" || option == "CONNECT_STRING" || option == "KAFKA_BROKER"
             || option == "KAFKA_TOPIC_SMS" || option == "KAFKA_TOPIC_CALLS"
    ensures option in OPTIONS && Field(c, option).Text? && Field(c', option).Text?
    ensures Field(c', option).s == Given(LastValue(lines, option), Field(c, option).s)
  {
    EightOptions();
    FieldsOf(c);
    hide LastValue, OPTIONS, Field;
  }
}
