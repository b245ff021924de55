/**
 * The diagnostic log of package toplog: the process-wide line buffer, the
 * delta counters, the window flags and the single DebugWidget that shows
 * the buffer, with the entry points that change them.
 */
module TopLog {
  import opened Wrappers
  import opened LogBuffer
  import opened Viewport

  /** DebugWidget: the log view's size and scroll position. */
  class DebugWidget {
    /** Rows of the view, header included (calulateViewDimensions derives it from the terminal). */
    var height: int
    /** Index of the first buffered line shown. */
    var viewOffset: int
    /** Characters cut from the front of every message when it is shown. */
    var horizonalOffset: nat

    constructor (height: int)
      ensures this.height == height && viewOffset == 0 && horizonalOffset == 0
    {
      this.height := height;
      viewOffset := 0;
      horizonalOffset := 0;
    }
  }

  /** The package state: debugLines, the window flags, the four delta counters and debugWidget. */
  class Log {
    var lines: seq<LogLine>
    var windowOpen: bool
    var freezeAutoScroll: bool
    var debugEnabled: bool
    var autoShowErrorEnabled: bool
    /** Lines logged per level while the window was closed, since it was last opened. */
    var debugMsgDelta: nat
    var infoMsgDelta: nat
    var warnMsgDelta: nat
    var errorMsgDelta: nat
    const widget: DebugWidget

    /** The buffer is capped and every stored message is a single line. */
    ghost predicate Bounded()
      reads this`lines
    {
      && |lines| <= MAX_LOG_LINES
      && forall i | 0 <= i < |lines| :: '\n' !in lines[i].message
    }

    /** Bounded, and at most one marker line is buffered. */
    ghost predicate Valid()
      reads this`lines
    {
      Bounded() && MarkerCount(lines) <= 1
    }

    /** The number of rows that show log lines. */
    function H(): int
      reads widget
    {
      widget.height - WINDOW_HEADER_SIZE
    }

    /** The scroll offset lies in 0 through max(0, |lines| - h). */
    ghost predicate InView()
      reads this, widget
    {
      InRange(widget.viewOffset, |lines|, H())
    }

    /** After a line is logged: tailing puts the view on the tail, otherwise the offset stays. */
    ghost predicate Followed(oldOffset: int)
      reads this, widget
    {
      widget.viewOffset == if windowOpen && !freezeAutoScroll then TailOffset(|lines|, H()) else oldOffset
    }

    /** GetMsgDeltas. */
    function GetMsgDeltas(): (int, int, int, int)
      reads this
    {
      (debugMsgDelta, infoMsgDelta, warnMsgDelta, errorMsgDelta)
    }

    /** The package's init together with InitDebug: an empty buffer and a fresh widget. */
    constructor (height: int)
      ensures Valid() && InView() && fresh(widget)
      ensures lines == [] && !windowOpen && !freezeAutoScroll
      ensures !debugEnabled && !autoShowErrorEnabled
      ensures GetMsgDeltas() == (0, 0, 0, 0)
      ensures widget.height == height && widget.viewOffset == 0 && widget.horizonalOffset == 0
    {
      lines := [];
      windowOpen, freezeAutoScroll := false, false;
      debugEnabled, autoShowErrorEnabled := false, false;
      debugMsgDelta, infoMsgDelta, warnMsgDelta, errorMsgDelta := 0, 0, 0, 0;
      widget := new DebugWidget(height);
    }

    method SetDebugEnabled(isEnabled: bool)
      modifies this`debugEnabled
      ensures debugEnabled == isEnabled
    {
      debugEnabled := isEnabled;
    }

    method SetAutoShowErrorEnabled(isEnabled: bool)
      modifies this`autoShowErrorEnabled
      ensures autoShowErrorEnabled == isEnabled
    {
      autoShowErrorEnabled := isEnabled;
    }

    /** scrollToLastLogLine: show the newest lines at the bottom of the view. */
    method ScrollToLastLogLine()
      modifies widget`viewOffset
      ensures widget.viewOffset == TailOffset(|lines|, H())
      ensures InView()
    {
      var logSize := |lines|;
      var viewOffset := logSize - (widget.height - WINDOW_HEADER_SIZE);
      if viewOffset < 0 {
        viewOffset := 0;
      }
      widget.viewOffset := viewOffset;
    }

    /**
     * logMsg: append one normalised line at the end, drop the oldest line
     * past MAX_LOG_LINES, and follow the tail when the window is open and
     * not frozen.
     */
    method LogMsg(level: Level, msg: string, stamp: string)
      requires Bounded()
      modifies this`lines, widget`viewOffset
      ensures Bounded()
      ensures lines == Appended(old(lines), LogLine(level, Normalize(msg), stamp))
      ensures Followed(old(widget.viewOffset))
      ensures old(InView()) ==> InView()
    {
      var message := Normalize(msg);
      var logLine := LogLine(level, message, stamp);
      lines := lines + [logLine];
      if |lines| > MAX_LOG_LINES {
        lines := lines[1..];
      }
      if windowOpen && !freezeAutoScroll {
        ScrollToLastLogLine();
      }
      forall i | 0 <= i < |lines| ensures '\n' !in lines[i].message {
        if i < |lines| - 1 {
          assert lines[i] == lines[..|lines| - 1][i];
        }
      }
    }

    /** Debug: nothing at all unless debug output is enabled; counts only while the window is closed. */
    method Debug(msg: string, stamp: string)
      requires Valid()
      modifies this`lines, widget`viewOffset, this`debugMsgDelta
      ensures Valid()
      ensures !debugEnabled ==> lines == old(lines) && widget.viewOffset == old(widget.viewOffset)
      ensures debugEnabled ==> lines == Appended(old(lines), LogLine(LogBuffer.Debug, Normalize(msg), stamp))
      ensures Followed(old(widget.viewOffset)) || !debugEnabled
      ensures debugMsgDelta == old(debugMsgDelta) + (if debugEnabled && !windowOpen then 1 else 0)
      ensures old(InView()) ==> InView()
    {
      if debugEnabled {
        AppendedPlainKeepsMarkers(lines, LogLine(LogBuffer.Debug, Normalize(msg), stamp));
        LogMsg(LogBuffer.Debug, msg, stamp);
        if !windowOpen {
          debugMsgDelta := debugMsgDelta + 1;
        }
      }
    }

    /** Info: always logged; counted only while the window is closed. */
    method Info(msg: string, stamp: string)
      requires Valid()
      modifies this`lines, widget`viewOffset, this`infoMsgDelta
      ensures Valid()
      ensures lines == Appended(old(lines), LogLine(LogBuffer.Info, Normalize(msg), stamp))
      ensures Followed(old(widget.viewOffset))
      ensures infoMsgDelta == old(infoMsgDelta) + (if windowOpen then 0 else 1)
      ensures old(InView()) ==> InView()
    {
      AppendedPlainKeepsMarkers(lines, LogLine(LogBuffer.Info, Normalize(msg), stamp));
      LogMsg(LogBuffer.Info, msg, stamp);
      if !windowOpen {
        infoMsgDelta := infoMsgDelta + 1;
      }
    }

    /** Warn: always logged; counted only while the window is closed. */
    method Warn(msg: string, stamp: string)
      requires Valid()
      modifies this`lines, widget`viewOffset, this`warnMsgDelta
      ensures Valid()
      ensures lines == Appended(old(lines), LogLine(LogBuffer.Warn, Normalize(msg), stamp))
      ensures Followed(old(widget.viewOffset))
      ensures warnMsgDelta == old(warnMsgDelta) + (if windowOpen then 0 else 1)
      ensures old(InView()) ==> InView()
    {
      AppendedPlainKeepsMarkers(lines, LogLine(LogBuffer.Warn, Normalize(msg), stamp));
      LogMsg(LogBuffer.Warn, msg, stamp);
      if !windowOpen {
        warnMsgDelta := warnMsgDelta + 1;
      }
    }

    /**
     * Error: always logged and counted while the window is closed; with
     * auto-show enabled it then opens the window, which zeroes the counters.
     */
    method Error(msg: string, stamp: string)
      requires Valid()
      modifies this`lines, widget`viewOffset, this`windowOpen
      modifies this`debugMsgDelta, this`infoMsgDelta, this`warnMsgDelta, this`errorMsgDelta
      ensures Valid()
      ensures lines == Appended(old(lines), LogLine(LogBuffer.Error, Normalize(msg), stamp))
      ensures autoShowErrorEnabled ==> windowOpen
      ensures !autoShowErrorEnabled ==> windowOpen == old(windowOpen)
      ensures Followed(old(widget.viewOffset))
      ensures autoShowErrorEnabled ==> GetMsgDeltas() == (0, 0, 0, 0)
      ensures !autoShowErrorEnabled ==>
                GetMsgDeltas() == (old(debugMsgDelta), old(infoMsgDelta), old(warnMsgDelta),
                                   old(errorMsgDelta) + (if windowOpen then 0 else 1))
      ensures old(InView()) ==> InView()
    {
      AppendedPlainKeepsMarkers(lines, LogLine(LogBuffer.Error, Normalize(msg), stamp));
      LogMsg(LogBuffer.Error, msg, stamp);
      if !windowOpen {
        errorMsgDelta := errorMsgDelta + 1;
      }
      AutoShow(old(widget.viewOffset));
    }

    /**
     * The last step of Error: with auto-show enabled, open the window.
     * `since` is the offset before the line was logged, which Followed is
     * relative to.
     */
    method AutoShow(ghost since: int)
      requires Valid() && Followed(since)
      modifies widget`viewOffset, this`windowOpen
      modifies this`debugMsgDelta, this`infoMsgDelta, this`warnMsgDelta, this`errorMsgDelta
      ensures autoShowErrorEnabled ==> windowOpen
      ensures !autoShowErrorEnabled ==> windowOpen == old(windowOpen)
      ensures Valid() && Followed(since)
      ensures autoShowErrorEnabled ==> GetMsgDeltas() == (0, 0, 0, 0)
      ensures !autoShowErrorEnabled ==> GetMsgDeltas() == old(GetMsgDeltas())
      ensures old(InView()) ==> InView()
    {
      if autoShowErrorEnabled {
        Open();
      }
    }

    /**
     * markLastLocation: delete the first marker line, if any, then log a new
     * marker, which becomes the newest line.
     */
    method MarkLastLocation(stamp: string)
      requires Valid()
      modifies this`lines, widget`viewOffset
      ensures Valid()
      ensures lines == Marked(old(lines), stamp)
      ensures lines[|lines| - 1] == MarkerLine(stamp)
      ensures forall j | 0 <= j < |lines| - 1 :: lines[j].level != Marker
      ensures Followed(old(widget.viewOffset))
      ensures old(InView()) ==> InView()
    {
      var foundIndex := -1;
      var index := 0;
      while index < |lines|
        invariant 0 <= index <= |lines|
        invariant foundIndex == -1
        invariant forall j | 0 <= j < index :: lines[j].level != Marker
      {
        if lines[index].level == Marker {
          foundIndex := index;
          break;
        }
        index := index + 1;
      }
      assert foundIndex >= 0 ==> foundIndex == FirstMarker(lines);
      assert foundIndex < 0 ==> FirstMarker(lines) == |lines|;
      ghost var before := lines;
      if foundIndex >= 0 {
        lines := lines[..foundIndex] + lines[foundIndex + 1..];
      }
      assert lines == WithoutFirstMarker(before);
      MarkSteps(before, stamp);
      LogMsg(Marker, MARKER_MESSAGE, stamp);
    }

    /**
     * Open, run at once rather than deferred to the UI loop: unless frozen,
     * jump to the tail; then openView.
     */
    method Open()
      modifies widget`viewOffset, this`windowOpen
      modifies this`debugMsgDelta, this`infoMsgDelta, this`warnMsgDelta, this`errorMsgDelta
      ensures windowOpen
      ensures widget.viewOffset == if freezeAutoScroll then old(widget.viewOffset) else TailOffset(|lines|, H())
      ensures GetMsgDeltas() == (0, 0, 0, 0)
      ensures old(InView()) ==> InView()
    {
      if !freezeAutoScroll {
        ScrollToLastLogLine();
      }
      OpenView();
    }

    /** openView: mark the window open and zero every delta counter. */
    method OpenView()
      modifies this`windowOpen
      modifies this`debugMsgDelta, this`infoMsgDelta, this`warnMsgDelta, this`errorMsgDelta
      ensures windowOpen
      ensures GetMsgDeltas() == (0, 0, 0, 0)
    {
      windowOpen := true;
      debugMsgDelta := 0;
      infoMsgDelta := 0;
      warnMsgDelta := 0;
      errorMsgDelta := 0;
    }

    /**
     * closeDebugWidget: if the UI closes the view (closeError is what its
     * CloseView returned), the window is closed, unfrozen and marked.
     */
    method CloseDebugWidget(closeError: Option<string>, stamp: string) returns (err: Option<string>)
      requires Valid()
      modifies this`windowOpen, this`freezeAutoScroll, this`lines, widget`viewOffset
      ensures Valid()
      ensures err == closeError
      ensures closeError.Some? ==>
                && lines == old(lines) && windowOpen == old(windowOpen)
                && freezeAutoScroll == old(freezeAutoScroll) && widget.viewOffset == old(widget.viewOffset)
      ensures closeError.None? ==>
                && !windowOpen && !freezeAutoScroll
                && lines == Marked(old(lines), stamp)
                && widget.viewOffset == old(widget.viewOffset)
      ensures old(InView()) ==> InView()
    {
      if closeError.Some? {
        return closeError;
      }
      windowOpen := false;
      freezeAutoScroll := false;
      MarkLastLocation(stamp);
      err := None;
    }

    /** arrowRight: pan five characters right, without limit. */
    method ArrowRight()
      modifies widget`horizonalOffset
      ensures widget.horizonalOffset == old(widget.horizonalOffset) + 5
    {
      widget.horizonalOffset := widget.horizonalOffset + 5;
    }

    /** arrowLeft: pan five characters left, stopping at 0. */
    method ArrowLeft()
      modifies widget`horizonalOffset
      ensures widget.horizonalOffset == if old(widget.horizonalOffset) < 5 then 0 else old(widget.horizonalOffset) - 5
    {
      var offset := widget.horizonalOffset - 5;
      if offset < 0 {
        offset := 0;
      }
      widget.horizonalOffset := offset;
    }

    /** arrowUp: one line up and freeze, unless already at the top, where nothing changes. */
    method ArrowUp()
      modifies widget`viewOffset, this`freezeAutoScroll
      ensures old(widget.viewOffset) > 0 ==> widget.viewOffset == old(widget.viewOffset) - 1 && freezeAutoScroll
      ensures old(widget.viewOffset) <= 0 ==>
                widget.viewOffset == old(widget.viewOffset) && freezeAutoScroll == old(freezeAutoScroll)
      ensures old(InView()) ==> InView()
    {
      if widget.viewOffset > 0 {
        widget.viewOffset := widget.viewOffset - 1;
        freezeAutoScroll := true;
      }
    }

    /** arrowDown: one line down while lines remain below; unfreeze once the tail is reached. */
    method ArrowDown()
      modifies widget`viewOffset, this`freezeAutoScroll
      ensures widget.viewOffset ==
                if BelowTail(old(widget.viewOffset), |lines|, H()) then old(widget.viewOffset) + 1
                else old(widget.viewOffset)
      ensures freezeAutoScroll == (old(freezeAutoScroll) && BelowTail(widget.viewOffset, |lines|, H()))
      ensures old(InView()) ==> InView()
    {
      var h := widget.height - WINDOW_HEADER_SIZE;
      if widget.viewOffset < |lines| && |lines| - h > widget.viewOffset {
        widget.viewOffset := widget.viewOffset + 1;
      }
      if !(widget.viewOffset < |lines| && |lines| - h > widget.viewOffset) {
        freezeAutoScroll := false;
      }
    }

    /** pageUp: a page up, stopping at 0, and freeze, unless already at the top. */
    method PageUp()
      modifies widget`viewOffset, this`freezeAutoScroll
      ensures old(widget.viewOffset) > 0 ==>
                && widget.viewOffset == (if old(widget.viewOffset) - H() < 0 then 0 else old(widget.viewOffset) - H())
                && freezeAutoScroll
      ensures old(widget.viewOffset) <= 0 ==>
                widget.viewOffset == old(widget.viewOffset) && freezeAutoScroll == old(freezeAutoScroll)
      ensures old(InView()) && H() >= 0 ==> InView()
    {
      if widget.viewOffset > 0 {
        widget.viewOffset := widget.viewOffset - (widget.height - WINDOW_HEADER_SIZE);
        if widget.viewOffset < 0 {
          widget.viewOffset := 0;
        }
        freezeAutoScroll := true;
      }
    }

    /**
     * pageDown: a page down; once that passes the tail, the tail offset and
     * unfreeze. The source sets len - h there, without the floor at 0.
     */
    method PageDown()
      modifies widget`viewOffset, this`freezeAutoScroll
      ensures widget.viewOffset == PageDownOffset(old(widget.viewOffset), |lines|, H())
      ensures freezeAutoScroll == (old(freezeAutoScroll) && BelowTail(old(widget.viewOffset) + H(), |lines|, H()))
      ensures old(InView()) && H() >= 0 ==> InView()
    {
      var h := widget.height - WINDOW_HEADER_SIZE;
      widget.viewOffset := widget.viewOffset + h;
      if !(widget.viewOffset < |lines| && |lines| - h > widget.viewOffset) {
        widget.viewOffset := TailOffset(|lines|, h);
        freezeAutoScroll := false;
      }
    }

    /** getAllLogLines: every buffered line, oldest first, whatever the scroll position. */
    method GetAllLogLines() returns (text: string)
      ensures text == Export(lines, widget.horizonalOffset)
    {
      var offset := widget.horizonalOffset;
      text := "";
      var index := 0;
      while index < |lines|
        invariant 0 <= index <= |lines|
        invariant text == Export(lines[..index], offset)
      {
        ExportStep(lines, index, offset);
        text := text + FormattedLine(lines[index], offset);
        index := index + 1;
      }
      assert lines[..index] == lines;
    }

    /**
     * getMaxLogLevel: the most severe level buffered, debug when there is
     * nothing more severe; the scan stops at the first error.
     */
    method GetMaxLogLevel() returns (maxLevel: Level)
      ensures maxLevel != Marker
      ensures forall i | 0 <= i < |lines| :: Severity(lines[i].level) <= Severity(maxLevel)
      ensures maxLevel == LogBuffer.Debug || exists i | 0 <= i < |lines| :: lines[i].level == maxLevel
    {
      maxLevel := LogBuffer.Debug;
      var index := 0;
      while index < |lines|
        invariant 0 <= index <= |lines|
        invariant maxLevel in {LogBuffer.Debug, LogBuffer.Info, LogBuffer.Warn}
        invariant forall i | 0 <= i < index :: Severity(lines[i].level) <= Severity(maxLevel)
        invariant maxLevel == LogBuffer.Debug || exists i | 0 <= i < index :: lines[i].level == maxLevel
      {
        match lines[index].level {
          case Error =>
            return LogBuffer.Error;
          case Warn =>
            if maxLevel != LogBuffer.Warn {
              maxLevel := LogBuffer.Warn;
            }
          case Info =>
            if maxLevel == LogBuffer.Debug {
              maxLevel := LogBuffer.Info;
            }
          case Debug =>
          case Marker =>
        }
        index := index + 1;
      }
    }
  }
}
