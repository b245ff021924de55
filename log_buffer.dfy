/**
 * The line buffer behind the diagnostic log (package toplog): log lines,
 * the capped append of logMsg, the single marker line and the per-line
 * formatting shared by the display and the clipboard export.
 */
module LogBuffer {

  /** MAX_LOG_FILES: the buffer never keeps more lines than this. */
  const MAX_LOG_LINES: nat := 1000

  /** LogLevel; the marker level is internal to the viewport. */
  datatype Level = Debug | Info | Warn | Error | Marker

  /** The one-letter code a level is printed as. */
  function Code(level: Level): string {
    match level
    case Debug => "D"
    case Info => "I"
    case Warn => "W"
    case Error => "E"
    case Marker => "M"
  }

  /** The order getMaxLogLevel ranks levels in; a marker ranks with debug, the lowest. */
  function Severity(level: Level): nat {
    match level
    case Debug => 0
    case Info => 1
    case Warn => 2
    case Error => 3
    case Marker => 0
  }

  /**
   * A log line. The timestamp is kept as the text it renders to
   * ("2006-01-02 15:04:05.000 MST" layout); reading the clock and
   * formatting it happen outside this model.
   */
  datatype LogLine = LogLine(level: Level, message: string, stamp: string)

  // ---------------------------------------------------------------------
  // Newline normalisation (strings.Replace(msg, "\n", " | ", -1))
  // ---------------------------------------------------------------------

  function NewlineCount(s: string): nat {
    if s == [] then 0 else (if s[0] == '\n' then 1 else 0) + NewlineCount(s[1..])
  }

  /** Every newline of the message becomes " | ", so a log line is one line. */
  function Normalize(s: string): (r: string)
    ensures '\n' !in r
    ensures |r| == |s| + 2 * NewlineCount(s)
  {
    if s == [] then ""
    else (if s[0] == '\n' then " | " else [s[0]]) + Normalize(s[1..])
  }

  /** A message that is already one line is stored unchanged. */
  lemma {:induction false} NormalizeSingleLine(s: string)
    requires '\n' !in s
    ensures Normalize(s) == s
  {
    if s != [] {
      assert forall c | c in s[1..] :: c in s;
      NormalizeSingleLine(s[1..]);
    }
  }

  /** Normalisation works character by character: it distributes over concatenation. */
  lemma {:induction false} NormalizeConcat(a: string, b: string)
    ensures Normalize(a + b) == Normalize(a) + Normalize(b)
  {
    if a == [] {
      assert a + b == b;
    } else {
      assert (a + b)[0] == a[0];
      assert (a + b)[1..] == a[1..] + b;
      NormalizeConcat(a[1..], b);
    }
  }

  lemma {:induction false} NewlineCountConcat(a: string, b: string)
    ensures NewlineCount(a + b) == NewlineCount(a) + NewlineCount(b)
  {
    if a == [] {
      assert a + b == b;
    } else {
      assert (a + b)[1..] == a[1..] + b;
      NewlineCountConcat(a[1..], b);
    }
  }

  lemma {:induction false} NewlineCountZero(s: string)
    requires '\n' !in s
    ensures NewlineCount(s) == 0
  {
    if s != [] {
      assert forall c | c in s[1..] :: c in s;
      NewlineCountZero(s[1..]);
    }
  }

  // ---------------------------------------------------------------------
  // The capped append of logMsg
  // ---------------------------------------------------------------------

  /**
   * logMsg's effect on the buffer: the line goes at the end and, when the
   * buffer then holds more than MAX_LOG_LINES lines, the oldest one goes.
   */
  function Appended(lines: seq<LogLine>, line: LogLine): (r: seq<LogLine>)
    ensures r != [] && r[|r| - 1] == line
    ensures r[..|r| - 1] == if |lines| >= MAX_LOG_LINES then lines[1..] else lines
    ensures |lines| <= MAX_LOG_LINES ==> |r| <= MAX_LOG_LINES
  {
    var grown := lines + [line];
    if |grown| > MAX_LOG_LINES then grown[1..] else grown
  }

  /** The newest MAX_LOG_LINES lines of a sequence of lines. */
  function Newest(s: seq<LogLine>): (r: seq<LogLine>) {
    if |s| > MAX_LOG_LINES then s[|s| - MAX_LOG_LINES..] else s
  }

  /** Logging the lines xs one after another. */
  function AppendAll(lines: seq<LogLine>, xs: seq<LogLine>): seq<LogLine>
    decreases |xs|
  {
    if xs == [] then lines else AppendAll(Appended(lines, xs[0]), xs[1..])
  }

  /** The buffer behaves as a FIFO of capacity MAX_LOG_LINES: it keeps exactly the newest lines. */
  lemma {:induction false} AppendAllKeepsNewest(lines: seq<LogLine>, xs: seq<LogLine>)
    requires |lines| <= MAX_LOG_LINES
    ensures AppendAll(lines, xs) == Newest(lines + xs)
    decreases |xs|
  {
    if xs == [] {
      assert lines + xs == lines;
    } else {
      var s := lines + [xs[0]];
      var rest := xs[1..];
      assert lines + xs == s + rest;
      AppendAllKeepsNewest(Appended(lines, xs[0]), rest);
      if |s| > MAX_LOG_LINES {
        assert Appended(lines, xs[0]) == s[1..];
        if rest == [] {
          assert s[1..] + rest == s[1..];
          assert s + rest == s;
        } else {
          assert (s[1..] + rest)[|rest|..] == (s + rest)[1 + |rest|..];
        }
      }
    }
  }

  /** Logging 1000 + K lines into an empty buffer leaves the last 1000 of them, the oldest K gone. */
  lemma OverflowDropsOldest(xs: seq<LogLine>)
    requires |xs| >= MAX_LOG_LINES
    ensures AppendAll([], xs) == xs[|xs| - MAX_LOG_LINES..]
    ensures |AppendAll([], xs)| == MAX_LOG_LINES
  {
    AppendAllKeepsNewest([], xs);
    assert [] + xs == xs;
  }

  // ---------------------------------------------------------------------
  // The marker line (markLastLocation)
  // ---------------------------------------------------------------------

  /** The text markLastLocation logs at the marker level. */
  const MARKER_MESSAGE: string := "------"

  /** The marker text holds no newline, so logging it stores it unchanged. */
  lemma MarkerMessageNormal()
    ensures Normalize(MARKER_MESSAGE) == MARKER_MESSAGE
  {
    NormalizeSingleLine(MARKER_MESSAGE);
  }

  function MarkerLine(stamp: string): LogLine {
    LogLine(Marker, MARKER_MESSAGE, stamp)
  }

  function MarkerCount(lines: seq<LogLine>): nat {
    if lines == [] then 0
    else (if lines[0].level == Marker then 1 else 0) + MarkerCount(lines[1..])
  }

  lemma {:induction false} MarkerCountConcat(a: seq<LogLine>, b: seq<LogLine>)
    ensures MarkerCount(a + b) == MarkerCount(a) + MarkerCount(b)
  {
    if a == [] {
      assert a + b == b;
    } else {
      assert (a + b)[0] == a[0];
      assert (a + b)[1..] == a[1..] + b;
      MarkerCountConcat(a[1..], b);
    }
  }

  /** The index of the first marker line, |lines| when there is none (the source uses -1). */
  function FirstMarker(lines: seq<LogLine>): (i: nat)
    ensures i <= |lines|
    ensures forall j | 0 <= j < i :: lines[j].level != Marker
    ensures i < |lines| ==> lines[i].level == Marker
  {
    if lines == [] then 0
    else if lines[0].level == Marker then 0
    else 1 + FirstMarker(lines[1..])
  }

  /** The buffer with its first marker line deleted and nothing else changed. */
  function WithoutFirstMarker(lines: seq<LogLine>): (r: seq<LogLine>)
    ensures |r| == if FirstMarker(lines) < |lines| then |lines| - 1 else |lines|
    ensures forall j | 0 <= j < FirstMarker(lines) && j < |r| :: r[j] == lines[j]
    ensures forall j | FirstMarker(lines) <= j < |r| :: r[j] == lines[j + 1]
  {
    var i := FirstMarker(lines);
    if i < |lines| then lines[..i] + lines[i + 1..] else lines
  }

  lemma {:induction false} NoMarkerBefore(lines: seq<LogLine>, i: nat)
    requires i <= |lines|
    requires forall j | 0 <= j < i :: lines[j].level != Marker
    ensures MarkerCount(lines[..i]) == 0
  {
    if i > 0 {
      assert lines[..i] == [lines[0]] + lines[1..][..i - 1];
      NoMarkerBefore(lines[1..], i - 1);
      MarkerCountConcat([lines[0]], lines[1..][..i - 1]);
    }
  }

  /** Deleting the first marker removes exactly one line, a marker, when there is one. */
  lemma WithoutFirstMarkerCount(lines: seq<LogLine>)
    ensures MarkerCount(lines) == 0 ==> WithoutFirstMarker(lines) == lines
    ensures MarkerCount(lines) > 0 ==>
              |WithoutFirstMarker(lines)| == |lines| - 1 &&
              MarkerCount(WithoutFirstMarker(lines)) == MarkerCount(lines) - 1
  {
    var i := FirstMarker(lines);
    NoMarkerBefore(lines, i);
    if i < |lines| {
      assert lines == lines[..i] + ([lines[i]] + lines[i + 1..]);
      MarkerCountConcat(lines[..i], [lines[i]] + lines[i + 1..]);
      MarkerCountConcat([lines[i]], lines[i + 1..]);
      MarkerCountConcat(lines[..i], lines[i + 1..]);
    } else {
      assert lines[..i] == lines;
    }
  }

  /** Deleting the first marker keeps every other line, so one-line messages stay one-line. */
  lemma WithoutFirstMarkerMessages(lines: seq<LogLine>)
    requires forall i | 0 <= i < |lines| :: '\n' !in lines[i].message
    ensures |WithoutFirstMarker(lines)| <= |lines|
    ensures forall i | 0 <= i < |WithoutFirstMarker(lines)| :: '\n' !in WithoutFirstMarker(lines)[i].message
  {
    var k := FirstMarker(lines);
    var w := WithoutFirstMarker(lines);
    if k < |lines| {
      forall i | 0 <= i < |w| ensures '\n' !in w[i].message {
        if i < k {
          assert w[i] == lines[i];
        } else {
          assert w[i] == lines[i + 1];
        }
      }
    }
  }

  /** markLastLocation's effect on the buffer. */
  function Marked(lines: seq<LogLine>, stamp: string): (r: seq<LogLine>)
    ensures r != [] && r[|r| - 1] == MarkerLine(stamp)
  {
    Appended(WithoutFirstMarker(lines), MarkerLine(stamp))
  }

  /** Appending a line that is not a marker never adds a marker. */
  lemma AppendedPlainKeepsMarkers(lines: seq<LogLine>, line: LogLine)
    requires line.level != Marker
    ensures MarkerCount(Appended(lines, line)) <= MarkerCount(lines)
  {
    var grown := lines + [line];
    MarkerCountConcat(lines, [line]);
    if |grown| > MAX_LOG_LINES {
      assert grown == [grown[0]] + grown[1..];
      MarkerCountConcat([grown[0]], grown[1..]);
    }
  }

  /**
   * After a mark the newest line is the marker and the number of markers is
   * one when there were none, unchanged otherwise; the buffer does not shrink.
   */
  lemma MarkedMarkerCount(lines: seq<LogLine>, stamp: string)
    requires |lines| <= MAX_LOG_LINES
    ensures var r := Marked(lines, stamp);
            && r[|r| - 1] == MarkerLine(stamp)
            && MarkerCount(r) == (if MarkerCount(lines) == 0 then 1 else MarkerCount(lines))
            && |lines| <= |r| <= MAX_LOG_LINES
  {
    var w := WithoutFirstMarker(lines);
    WithoutFirstMarkerCount(lines);
    var grown := w + [MarkerLine(stamp)];
    MarkerCountConcat(w, [MarkerLine(stamp)]);
    assert MarkerCount([MarkerLine(stamp)]) == 1;
    if |grown| > MAX_LOG_LINES {
      assert grown == [grown[0]] + grown[1..];
      MarkerCountConcat([grown[0]], grown[1..]);
    }
  }

  /** With at most one marker before, a mark leaves exactly one, and it is the newest line. */
  lemma MarkedSingleMarker(lines: seq<LogLine>, stamp: string)
    requires |lines| <= MAX_LOG_LINES && MarkerCount(lines) <= 1
    ensures var r := Marked(lines, stamp);
            && MarkerCount(r) == 1
            && r[|r| - 1].level == Marker
            && forall j | 0 <= j < |r| - 1 :: r[j].level != Marker
  {
    MarkedMarkerCount(lines, stamp);
    var r := Marked(lines, stamp);
    assert r == r[..|r| - 1] + [r[|r| - 1]];
    MarkerCountConcat(r[..|r| - 1], [r[|r| - 1]]);
    var front := r[..|r| - 1];
    forall j | 0 <= j < |front| ensures front[j].level != Marker {
      if front[j].level == Marker {
        MarkerCountPositive(front, j);
        assert false;
      }
    }
  }

  /**
   * Everything markLastLocation needs of its two steps: the buffer left by
   * the deletion may be logged to, and logging the marker text to it gives
   * Marked, whose only marker is its newest line.
   */
  lemma MarkSteps(lines: seq<LogLine>, stamp: string)
    requires |lines| <= MAX_LOG_LINES && MarkerCount(lines) <= 1
    requires forall i | 0 <= i < |lines| :: '\n' !in lines[i].message
    ensures var w := WithoutFirstMarker(lines);
            && |w| <= MAX_LOG_LINES
            && (forall i | 0 <= i < |w| :: '\n' !in w[i].message)
            && Appended(w, LogLine(Marker, Normalize(MARKER_MESSAGE), stamp)) == Marked(lines, stamp)
    ensures var r := Marked(lines, stamp);
            && MarkerCount(r) == 1
            && r[|r| - 1] == MarkerLine(stamp)
            && forall j | 0 <= j < |r| - 1 :: r[j].level != Marker
  {
    WithoutFirstMarkerMessages(lines);
    MarkedSingleMarker(lines, stamp);
    MarkedMarkerCount(lines, stamp);
    MarkerMessageNormal();
  }

  lemma {:induction false} MarkerCountPositive(s: seq<LogLine>, j: nat)
    requires j < |s| && s[j].level == Marker
    ensures MarkerCount(s) >= 1
  {
    if j > 0 {
      MarkerCountPositive(s[1..], j - 1);
    }
  }

  // ---------------------------------------------------------------------
  // Formatting (getFormattedLogLine) and export (getAllLogLines)
  // ---------------------------------------------------------------------

  const ESC: char := 27 as char

  /** The colour prefix of a level: RED/YELLOW/WHITE + DIM, WHITE + BRIGHT for the marker. */
  function Color(level: Level): string {
    match level
    case Error => [ESC] + "[31;2m"
    case Warn => [ESC] + "[33;2m"
    case Info => [ESC] + "[37;2m"
    case Debug => [ESC] + "[37;2m"
    case Marker => [ESC] + "[37;1m"
  }

  /** The fixed text a marker line renders as, whatever its message. */
  const MARKER_BANNER: string := Rule(17) + " New" + " Messages" + " Below " + Rule(23)

  /** A run of n underscores. */
  function Rule(n: nat): string {
    seq(n, _ => '_')
  }

  /** The part of a message shown at a horizontal offset: the suffix from the offset, or nothing. */
  function Shown(message: string, offset: nat): (r: string)
    ensures |r| == if offset < |message| then |message| - offset else 0
    ensures r == message[|message| - |r|..]
  {
    if offset < |message| then message[offset..] else ""
  }

  /** getFormattedLogLine: one display line, terminated by a newline. */
  function FormattedLine(line: LogLine, offset: nat): (r: string)
    ensures |r| > |Color(line.level)| && r[..|Color(line.level)|] == Color(line.level)
    ensures r[|r| - 1] == '\n'
  {
    if line.level == Marker then Color(Marker) + MARKER_BANNER + "\n"
    else Color(line.level) + line.stamp + " " + Code(line.level) + " " + Shown(line.message, offset) + "\n"
  }

  /** A marker line renders as the banner whatever its message, stamp or the offset. */
  lemma MarkerRendersBanner(line: LogLine, offset: nat)
    requires line.level == Marker
    ensures FormattedLine(line, offset) == Color(Marker) + MARKER_BANNER + "\n"
  {
  }

  predicate SingleLineEntry(line: LogLine) {
    '\n' !in line.message && '\n' !in line.stamp
  }

  /** A formatted line of a one-line entry holds exactly one newline, its last character. */
  lemma FormattedLineNewlines(line: LogLine, offset: nat)
    requires SingleLineEntry(line)
    ensures NewlineCount(FormattedLine(line, offset)) == 1
    ensures FormattedLine(line, offset)[|FormattedLine(line, offset)| - 1] == '\n'
  {
    var body: string;
    if line.level == Marker {
      body := Color(Marker) + MARKER_BANNER;
    } else {
      var shown := Shown(line.message, offset);
      assert forall c | c in shown :: c in line.message;
      body := Color(line.level) + line.stamp + " " + Code(line.level) + " " + shown;
    }
    assert '\n' !in Rule(17) && '\n' !in Rule(23);
    assert '\n' !in Color(line.level) && '\n' !in Code(line.level) && '\n' !in MARKER_BANNER;
    assert '\n' !in body;
    assert FormattedLine(line, offset) == body + "\n";
    NewlineCountZero(body);
    NewlineCountConcat(body, "\n");
  }

  /** getAllLogLines: every line from the oldest to the newest, each formatted. */
  function Export(lines: seq<LogLine>, offset: nat): (r: string)
    ensures |r| > |lines| || lines == []
    ensures r == [] <==> lines == []
    ensures lines != [] ==> r[|r| - 1] == '\n'
  {
    if lines == [] then ""
    else Export(lines[..|lines| - 1], offset) + FormattedLine(lines[|lines| - 1], offset)
  }

  lemma {:induction false} ExportConcat(a: seq<LogLine>, b: seq<LogLine>, offset: nat)
    ensures Export(a + b, offset) == Export(a, offset) + Export(b, offset)
    decreases |b|
  {
    if b == [] {
      assert a + b == a;
    } else {
      var b' := b[..|b| - 1];
      var last := b[|b| - 1];
      assert a + b == (a + b') + [last];
      assert b' + [last] == b;
      ExportSnoc(a + b', last, offset);
      ExportSnoc(b', last, offset);
      ExportConcat(a, b', offset);
      ConcatAssoc(Export(a, offset), Export(b', offset), FormattedLine(last, offset));
    }
  }

  /**
   * Concatenation is associative. Stated apart so that ExportConcat can use it
   * without the bodies of the formatted lines in view.
   */
  lemma ConcatAssoc(p: string, q: string, x: string)
    ensures (p + q) + x == p + (q + x)
  {
  }

  lemma ExportSnoc(lines: seq<LogLine>, last: LogLine, offset: nat)
    ensures Export(lines + [last], offset) == Export(lines, offset) + FormattedLine(last, offset)
  {
    var s := lines + [last];
    assert s[..|s| - 1] == lines;
  }

  /** One loop step of getAllLogLines: the export of a prefix one line longer. */
  lemma ExportStep(lines: seq<LogLine>, index: nat, offset: nat)
    requires index < |lines|
    ensures Export(lines[..index + 1], offset) == Export(lines[..index], offset) + FormattedLine(lines[index], offset)
  {
    assert lines[..index + 1] == lines[..index] + [lines[index]];
    ExportSnoc(lines[..index], lines[index], offset);
  }

  /** The export holds one text line per buffered line: exactly |lines| newlines. */
  lemma {:induction false} ExportLineCount(lines: seq<LogLine>, offset: nat)
    requires forall i | 0 <= i < |lines| :: SingleLineEntry(lines[i])
    ensures NewlineCount(Export(lines, offset)) == |lines|
  {
    if lines != [] {
      var front := lines[..|lines| - 1];
      ExportLineCount(front, offset);
      FormattedLineNewlines(lines[|lines| - 1], offset);
      NewlineCountConcat(Export(front, offset), FormattedLine(lines[|lines| - 1], offset));
    }
  }
}
