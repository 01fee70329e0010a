/**
 * The log item and the text line `WriteLog` builds from it:
 *
 *   [yyyy-MM-dd] [HH:mm:ss.ff] [Level]      - message
 *
 * with the bracketed level left-aligned in a 12-character field, and, for
 * ERROR and Exception items that carry a non-empty stack trace, the suffix
 * CR LF "StackTrace ==> " followed by the trimmed trace.
 */
module Format {
  import opened Wrappers
  import opened Levels
  import opened Timestamps
  import opened Text
  import opened Seqs

  /** One queued log event. A null stack trace is `None`. */
  datatype LogItem = LogItem(message: string, stackTrace: Option<string>, level: LogLevel, time: Time)

  const TraceSeparator: string := "\r\nStackTrace ==> "

  /** The gate of the two-way `if` in `WriteLog`: a non-null, non-empty trace on an ERROR or Exception. */
  predicate HasTraceSuffix(level: LogLevel, stackTrace: Option<string>) {
    stackTrace.Some? && stackTrace.value != [] && IsTraceLevel(level)
  }

  /** `[yyyy-MM-dd] [HH:mm:ss.ff] ` */
  function Stamp(t: Time): (s: string)
    ensures |s| == 27
  {
    "[" + DateText(t) + "] [" + ClockText(t) + "] "
  }

  /** `"[" + level + "]"` left-aligned in 12 characters. */
  function LevelField(level: LogLevel): string {
    PadRight("[" + LevelName(level) + "]", 12)
  }

  function BaseLine(t: Time, level: LogLevel, message: string): string {
    Stamp(t) + LevelField(level) + " - " + message
  }

  function FormatLine(t: Time, level: LogLevel, message: string, stackTrace: Option<string>): string {
    BaseLine(t, level, message)
      + if HasTraceSuffix(level, stackTrace) then TraceSeparator + Trim(stackTrace.value) else ""
  }

  /** The line `RecordLog` writes for a dequeued item. */
  function ItemLine(item: LogItem): string {
    FormatLine(item.time, item.level, item.message, item.stackTrace)
  }

  /** The lines of a sequence of records, one each, in order. */
  function Lines(records: seq<LogItem>): (r: seq<string>)
    ensures |r| == |records|
  {
    Map(ItemLine, records)
  }

  /**
   * Every bracketed level name fits in 11 characters, so the level field is
   * exactly 12 wide: the bracketed name, then at least one space.
   */
  lemma LevelFieldLayout(level: LogLevel)
    ensures var name := LevelName(level);
      && |LevelField(level)| == 12
      && LevelField(level)[..|name| + 2] == "[" + name + "]"
      && (forall i :: |name| + 2 <= i < 12 ==> LevelField(level)[i] == ' ')
      && LevelField(level)[11] == ' '
  {
  }

  /** A field that starts with a bracketed name holds the name right after `[`, and `]` right after the name. */
  lemma BracketedName(name: string, field: string)
    requires |name| + 2 <= |field| && field[..|name| + 2] == "[" + name + "]"
    ensures field[1..|name| + 1] == name && field[|name| + 1] == ']'
  {
    var g := "[" + name + "]";
    assert field[1..|name| + 1] == g[1..|name| + 1];
    assert g[1..|name| + 1] == name;
    assert field[|name| + 1] == g[|name| + 1];
  }

  /** The level field names the level unambiguously. */
  lemma LevelFieldInjective(a: LogLevel, b: LogLevel)
    ensures LevelField(a) == LevelField(b) <==> a == b
  {
    if a != b {
      LevelFieldLayout(a);
      LevelFieldLayout(b);
      LevelNameInjective(a, b);
      var fa, fb := LevelField(a), LevelField(b);
      var na, nb := LevelName(a), LevelName(b);
      BracketedName(na, fa);
      BracketedName(nb, fb);
      // The first ']' closes the name, and names are letters only.
      if |na| == |nb| {
        assert fa[1..|na| + 1] != fb[1..|nb| + 1];
      } else if |na| < |nb| {
        assert fb[|na| + 1] == nb[|na|];
        assert fa[|na| + 1] != fb[|na| + 1];
      } else {
        assert fa[|nb| + 1] == na[|nb|];
        assert fa[|nb| + 1] != fb[|nb| + 1];
      }
    }
  }

  /**
   * Where each part of a formatted line stands: the stamp in characters
   * 0..27, the level field in 27..39, " - " in 39..42, then the message and,
   * only when the gate holds, the trace suffix.
   */
  lemma FormatLineLayout(t: Time, level: LogLevel, message: string, stackTrace: Option<string>)
    ensures var line := FormatLine(t, level, message, stackTrace);
      && |line| >= 42 + |message|
      && line[..27] == Stamp(t)
      && line[27..39] == LevelField(level)
      && line[39..42] == " - "
      && line[42..42 + |message|] == message
      && line[42 + |message|..] == if HasTraceSuffix(level, stackTrace) then TraceSeparator + Trim(stackTrace.value) else ""
  {
    LevelFieldLayout(level);
    var b := BaseLine(t, level, message);
    assert |b| == 42 + |message|;
  }

  /** The stack trace changes the line exactly when the gate holds: the level decides, not the trace alone. */
  lemma TraceSuffixGate(t: Time, level: LogLevel, message: string, stackTrace: Option<string>)
    ensures FormatLine(t, level, message, stackTrace) == BaseLine(t, level, message)
        <==> !HasTraceSuffix(level, stackTrace)
  {
    if HasTraceSuffix(level, stackTrace) {
      assert |FormatLine(t, level, message, stackTrace)| > |BaseLine(t, level, message)|;
    }
  }

  /** Reads the seven time fields back from the digit positions of a stamp. */
  function ParseTime(line: string): DateTime
    requires |line| >= 27
  {
    DateTime(ParseDigits(line[1..5]), ParseDigits(line[6..8]), ParseDigits(line[9..11]),
             ParseDigits(line[14..16]), ParseDigits(line[17..19]), ParseDigits(line[20..22]),
             ParseDigits(line[23..25]))
  }

  /** The stamp records the item's time to the hundredth of a second. */
  lemma StampRoundTrip(t: Time, level: LogLevel, message: string, stackTrace: Option<string>)
    ensures var line := FormatLine(t, level, message, stackTrace);
      |line| >= 27 && ParseTime(line) == t
  {
    FormatLineLayout(t, level, message, stackTrace);
    var line := FormatLine(t, level, message, stackTrace);
    StampFields(t);
    assert ParseTime(line) == ParseTime(Stamp(t)) by {
      assert line[..27] == Stamp(t);
      assert line[1..5] == Stamp(t)[1..5] && line[6..8] == Stamp(t)[6..8] && line[9..11] == Stamp(t)[9..11];
      assert line[14..16] == Stamp(t)[14..16] && line[17..19] == Stamp(t)[17..19];
      assert line[20..22] == Stamp(t)[20..22] && line[23..25] == Stamp(t)[23..25];
    }
    DigitsRoundTrip(t.year, 4);
    DigitsRoundTrip(t.month, 2);
    DigitsRoundTrip(t.day, 2);
    DigitsRoundTrip(t.hour, 2);
    DigitsRoundTrip(t.minute, 2);
    DigitsRoundTrip(t.second, 2);
    DigitsRoundTrip(t.hundredths, 2);
  }

  lemma StampFields(t: Time)
    ensures var s := Stamp(t);
      && s[1..5] == Digits(t.year, 4) && s[6..8] == Digits(t.month, 2) && s[9..11] == Digits(t.day, 2)
      && s[14..16] == Digits(t.hour, 2) && s[17..19] == Digits(t.minute, 2)
      && s[20..22] == Digits(t.second, 2) && s[23..25] == Digits(t.hundredths, 2)
  {
    var s, d, c := Stamp(t), DateText(t), ClockText(t);
    assert s[1..11] == d && s[14..25] == c;
    assert d[..4] == Digits(t.year, 4) && d[5..7] == Digits(t.month, 2) && d[8..] == Digits(t.day, 2);
    assert c[..2] == Digits(t.hour, 2) && c[3..5] == Digits(t.minute, 2);
    assert c[6..8] == Digits(t.second, 2) && c[9..] == Digits(t.hundredths, 2);
  }

  /**
   * A padded trace on an ERROR is trimmed after the separator; the same
   * trace on an Info item is not written at all.
   */
  lemma TraceTrimmedOnErrorOnly(t: Time, message: string)
    ensures FormatLine(t, ERROR, message, Some("  at foo()  "))
         == BaseLine(t, ERROR, message) + TraceSeparator + "at foo()"
    ensures FormatLine(t, Info, message, Some("  at foo()  ")) == BaseLine(t, Info, message)
  {
    TrimOfPaddedTrace();
    TraceSuffixGate(t, Info, message, Some("  at foo()  "));
    var b := BaseLine(t, ERROR, message);
    assert FormatLine(t, ERROR, message, Some("  at foo()  ")) == b + (TraceSeparator + "at foo()");
    AppendTwice(b, b + TraceSeparator, b + TraceSeparator + "at foo()", TraceSeparator, "at foo()");
  }

  lemma TrimOfPaddedTrace()
    ensures Trim("  at foo()  ") == "at foo()"
  {
    var trace := "  at foo()  ";
    assert IsWhiteSpace(trace[0]) && IsWhiteSpace(trace[1]) && !IsWhiteSpace(trace[2]);
    assert IsWhiteSpace(trace[10]) && IsWhiteSpace(trace[11]) && !IsWhiteSpace(trace[9]);
    TrimUnique(trace, 2, 10);
  }
}
