/**
 * The painter that gives the line holding the caret a highlight background
 * in a text widget, and asks the widget to redraw the old and the new
 * highlighted line whenever the caret moves to another line.
 *
 * The widget is reduced to what the painter reads and causes: its line
 * starts, character count, caret, background colour, the set of registered
 * line-background listeners and the log of redraw requests it received.
 */
module LinePainting {
  import opened Wrappers

  datatype Color = Color(red: int, green: int, blue: int)

  /** A redraw request made of the widget. */
  datatype Redraw =
    | FullWidthRedraw(offset: int)         // the whole client width, one line high, at the location of `offset`
    | RangeRedraw(start: int, length: int) // the characters [start, start + length)

  /**
   * The widget's line table: line 0 starts at 0, the starts increase, and the
   * last line may start at the very end (after a final line delimiter).
   */
  ghost predicate ValidLineStarts(lineStarts: seq<int>, charCount: int) {
    && |lineStarts| >= 1
    && lineStarts[0] == 0
    && (forall i, j :: 0 <= i < j < |lineStarts| ==> lineStarts[i] < lineStarts[j])
    && lineStarts[|lineStarts| - 1] <= charCount
  }

  /** The widget's lookup of the line holding `offset`. */
  function LineAtOffset(lineStarts: seq<int>, offset: int): (line: nat)
    requires |lineStarts| >= 1 && lineStarts[0] <= offset
    ensures line < |lineStarts| && lineStarts[line] <= offset
    ensures line + 1 < |lineStarts| ==> offset < lineStarts[line + 1]
  {
    if lineStarts[|lineStarts| - 1] <= offset then |lineStarts| - 1
    else LineAtOffset(lineStarts[..|lineStarts| - 1], offset)
  }

  /** The widget's start of line `line`; None where it rejects the index. */
  function OffsetAtLine(lineStarts: seq<int>, line: int): Option<int> {
    if 0 <= line < |lineStarts| then Some(lineStarts[line]) else None
  }

  /** The caret moved back onto the text when it lies beyond it. */
  function ClampCaret(caret: int, charCount: int): int {
    if caret > charCount then charCount else caret
  }

  /**
   * The start of the line holding the (clamped) caret: the last line start
   * not after it.
   */
  function CaretLineStart(lineStarts: seq<int>, charCount: int, caret: int): (start: int)
    requires ValidLineStarts(lineStarts, charCount) && caret >= 0
    ensures start in lineStarts && start <= ClampCaret(caret, charCount)
    ensures forall i :: 0 <= i < |lineStarts| && lineStarts[i] <= ClampCaret(caret, charCount) ==> lineStarts[i] <= start
  {
    var offset := ClampCaret(caret, charCount);
    var line := LineAtOffset(lineStarts, offset);
    assert forall i :: line < i < |lineStarts| ==> offset < lineStarts[i] by {
      forall i | line < i < |lineStarts| ensures offset < lineStarts[i] {
        assert lineStarts[line + 1] <= lineStarts[i];
      }
    }
    lineStarts[line]
  }

  /** Two caret positions within one line give the same line start. */
  lemma SameLineSameStart(lineStarts: seq<int>, charCount: int, caret1: int, caret2: int, line: nat)
    requires ValidLineStarts(lineStarts, charCount) && caret1 >= 0 && caret2 >= 0
    requires line < |lineStarts|
    requires lineStarts[line] <= ClampCaret(caret1, charCount) && lineStarts[line] <= ClampCaret(caret2, charCount)
    requires line + 1 < |lineStarts| ==>
               ClampCaret(caret1, charCount) < lineStarts[line + 1] && ClampCaret(caret2, charCount) < lineStarts[line + 1]
    ensures CaretLineStart(lineStarts, charCount, caret1) == lineStarts[line]
    ensures CaretLineStart(lineStarts, charCount, caret2) == lineStarts[line]
  {
    var s1 := CaretLineStart(lineStarts, charCount, caret1);
    var s2 := CaretLineStart(lineStarts, charCount, caret2);
    var i1 :| 0 <= i1 < |lineStarts| && lineStarts[i1] == s1;
    var i2 :| 0 <= i2 < |lineStarts| && lineStarts[i2] == s2;
    assert forall j :: line < j < |lineStarts| ==> lineStarts[line + 1] <= lineStarts[j];
  }

  /** The start of the line after `line`, or -1 where the widget has none. */
  function NextLineStart(lineStarts: seq<int>, line: int): int {
    match OffsetAtLine(lineStarts, line + 1)
    case Some(start) => start
    case None => -1
  }

  /** A recorded line end at or beyond the text's end is forgotten (-1). */
  function NormalizedEnd(lineEnd: int, charCount: int): int {
    if lineEnd >= charCount then -1 else lineEnd
  }

  /**
   * The redraw requested for the recorded line [line0, line1]: a range redraw
   * when the line has a known end inside the text, otherwise a full-width
   * redraw at the location of line0, which the widget rejects (None) when
   * line0 lies outside [0, charCount].
   */
  function HighlightRedraw(line0: int, line1: int, charCount: int): (r: Option<Redraw>)
    ensures r.None? <==> NormalizedEnd(line1, charCount) == -1 && !(0 <= line0 <= charCount)
    ensures r.Some? && r.value.RangeRedraw? ==>
              r.value.start == line0 && r.value.start + r.value.length == line1 < charCount
    ensures r.Some? && r.value.FullWidthRedraw? ==> r.value.offset == line0 && 0 <= line0 <= charCount
    ensures r.Some? ==> (r.value.FullWidthRedraw? <==> NormalizedEnd(line1, charCount) == -1)
  {
    var end := NormalizedEnd(line1, charCount);
    if end == -1 then
      if 0 <= line0 <= charCount then Some(FullWidthRedraw(line0)) else None
    else Some(RangeRedraw(line0, end - line0))
  }

  function RedrawsOf(r: Option<Redraw>): seq<Redraw> {
    match r
    case Some(x) => [x]
    case None => []
  }

  /**
   * A recorded line as the painter keeps it (start at or after 0, end -1 or
   * after the start) whose start lies in the text is always redrawn, and a
   * range redraw then covers a non-empty part of the text.
   */
  lemma RecordedLineRedrawn(line0: int, line1: int, charCount: int)
    requires 0 <= line0 <= charCount
    requires line1 == -1 || line0 < line1
    ensures HighlightRedraw(line0, line1, charCount).Some?
    ensures HighlightRedraw(line0, line1, charCount).value.RangeRedraw? ==>
              0 < HighlightRedraw(line0, line1, charCount).value.length < charCount
  {
  }

  /** The parts of the styled-text widget the painter uses. */
  class StyledText {
    var lineStarts: seq<int>
    var charCount: int
    var caretOffset: int
    var background: Color
    var backgroundListeners: set<object>
    var redraws: seq<Redraw>

    ghost predicate Valid()
      reads this
    {
      ValidLineStarts(lineStarts, charCount) && caretOffset >= 0
    }

    constructor (lineStarts: seq<int>, charCount: int, caretOffset: int, background: Color)
      requires ValidLineStarts(lineStarts, charCount) && caretOffset >= 0
      ensures Valid()
      ensures this.lineStarts == lineStarts && this.charCount == charCount
      ensures this.caretOffset == caretOffset && this.background == background
      ensures backgroundListeners == {} && redraws == []
    {
      this.lineStarts := lineStarts;
      this.charCount := charCount;
      this.caretOffset := caretOffset;
      this.background := background;
      backgroundListeners := {};
      redraws := [];
    }
  }

  /** The event in which the widget asks a listener for a line's background. */
  class LineBackgroundEvent {
    const lineOffset: int
    const lineText: string
    var lineBackground: Option<Color>

    constructor (lineOffset: int, lineText: string)
      ensures this.lineOffset == lineOffset && this.lineText == lineText && lineBackground == None
    {
      this.lineOffset := lineOffset;
      this.lineText := lineText;
      lineBackground := None;
    }
  }

  class LinePainter {
    var textWidget: StyledText?
    var highlightColor: Option<Color>
    var isActive: bool
    var lastOffset: int
    var currentOffset: int
    var lineNumber: int
    /** The highlighted line: its start and the next line's start (or -1). */
    const line: array<int>

    ghost predicate Valid()
      reads this, line
    {
      && line.Length == 2
      && line[0] == lastOffset == currentOffset
      && -1 <= lastOffset
      && (line[1] != -1 ==> 0 <= line[0] < line[1])
      && (isActive ==> lastOffset >= 0)
    }

    constructor (widget: StyledText)
      ensures Valid() && fresh(line)
      ensures textWidget == widget && highlightColor == None && !isActive
      ensures lastOffset == -1 && currentOffset == -1 && lineNumber == -1
      ensures line[..] == [-1, -1]
    {
      textWidget := widget;
      highlightColor := None;
      isActive := false;
      lastOffset, currentOffset, lineNumber := -1, -1, -1;
      line := new int[2] [-1, -1];
    }

    method SetHighlightColor(highlightColor: Option<Color>)
      modifies this`highlightColor
      ensures this.highlightColor == highlightColor
    {
      this.highlightColor := highlightColor;
    }

    /**
     * The background of a line: the highlight colour iff the painter is active
     * and the caret lies in [lineOffset, lineOffset + length of the line text];
     * otherwise the widget's background. Nothing is set once the widget is gone.
     */
    method LineGetBackground(event: LineBackgroundEvent)
      modifies event
      ensures textWidget == null ==> unchanged(event)
      ensures textWidget != null ==>
                var caret := textWidget.caretOffset;
                event.lineBackground ==
                  if event.lineOffset <= caret <= event.lineOffset + |event.lineText| && isActive
                  then highlightColor
                  else Some(textWidget.background)
    {
      if textWidget != null {
        var caret := textWidget.caretOffset;
        var length := |event.lineText|;
        if event.lineOffset <= caret && caret <= event.lineOffset + length && isActive {
          event.lineBackground := highlightColor;
        } else {
          event.lineBackground := Some(textWidget.background);
        }
      }
    }

    /**
     * Looks up the line of the caret (clamped to the text) and tells whether
     * its start is the one recorded last time; records it if not.
     */
    method IsSameLine() returns (same: bool)
      requires textWidget != null && textWidget.Valid()
      modifies this`lineNumber, this`currentOffset, this`lastOffset
      ensures 0 <= lineNumber < |textWidget.lineStarts|
      ensures lineNumber == LineAtOffset(textWidget.lineStarts, ClampCaret(textWidget.caretOffset, textWidget.charCount))
      ensures currentOffset == CaretLineStart(textWidget.lineStarts, textWidget.charCount, textWidget.caretOffset)
      ensures currentOffset == textWidget.lineStarts[lineNumber]
      ensures same == (old(lastOffset) == currentOffset)
      ensures lastOffset == currentOffset
    {
      var offset := textWidget.caretOffset;
      var length := textWidget.charCount;
      if offset > length {
        offset := length;
      }
      lineNumber := LineAtOffset(textWidget.lineStarts, offset);
      currentOffset := textWidget.lineStarts[lineNumber];
      if lastOffset != currentOffset {
        lastOffset := currentOffset;
        return false;
      }
      return true;
    }

    /** Records the caret's line: its start, and the next line's start or -1. */
    method UpdateHighlightLine()
      requires textWidget != null && line.Length == 2
      modifies line
      ensures line[0] == currentOffset
      ensures line[1] == NextLineStart(textWidget.lineStarts, lineNumber)
      ensures line[1] == (if 0 <= lineNumber + 1 < |textWidget.lineStarts| then textWidget.lineStarts[lineNumber + 1] else -1)
    {
      line[0] := currentOffset;
      match OffsetAtLine(textWidget.lineStarts, lineNumber + 1)
      case Some(start) => line[1] := start;
      case None => line[1] := -1;
    }

    /**
     * Redraws the recorded line after forgetting an end at or beyond the
     * text's end. `ok` is false when the widget rejected the location lookup
     * of the full-width redraw (an IllegalArgumentException there).
     */
    method DrawHighlightLine() returns (ok: bool)
      requires textWidget != null && line.Length == 2
      modifies line, textWidget`redraws
      ensures line[0] == old(line[0])
      ensures line[1] == NormalizedEnd(old(line[1]), textWidget.charCount)
      ensures ok == HighlightRedraw(old(line[0]), old(line[1]), textWidget.charCount).Some?
      ensures textWidget.redraws
           == old(textWidget.redraws) + RedrawsOf(HighlightRedraw(old(line[0]), old(line[1]), textWidget.charCount))
    {
      if line[1] >= textWidget.charCount {
        line[1] := -1;
      }
      if line[1] == -1 {
        if !(0 <= line[0] <= textWidget.charCount) {
          return false;
        }
        textWidget.redraws := textWidget.redraws + [FullWidthRedraw(line[0])];
      } else {
        textWidget.redraws := textWidget.redraws + [RangeRedraw(line[0], line[1] - line[0])];
      }
      return true;
    }

    /** Redraws the old line, but only when its start still lies in the text. */
    method ClearHighlightLine() returns (ok: bool)
      requires textWidget != null && line.Length == 2
      modifies line, textWidget`redraws
      ensures old(line[0]) <= textWidget.charCount ==>
                && line[0] == old(line[0])
                && line[1] == NormalizedEnd(old(line[1]), textWidget.charCount)
                && ok == HighlightRedraw(old(line[0]), old(line[1]), textWidget.charCount).Some?
                && textWidget.redraws == old(textWidget.redraws)
                     + RedrawsOf(HighlightRedraw(old(line[0]), old(line[1]), textWidget.charCount))
      ensures old(line[0]) > textWidget.charCount ==>
                ok && unchanged(line) && textWidget.redraws == old(textWidget.redraws)
    {
      ok := true;
      if line[0] <= textWidget.charCount {
        ok := DrawHighlightLine();
      }
    }

    /**
     * Stops highlighting. Only an active painter acts: it becomes inactive,
     * unregisters itself and redraws the recorded line if asked; `ok` is false
     * when that redraw was rejected by the widget.
     */
    method Deactivate(redraw: bool) returns (ok: bool)
      requires Valid() && (isActive ==> textWidget != null)
      modifies this`isActive, line, textWidget
      ensures Valid() && !isActive
      ensures !old(isActive) ==> ok && unchanged(line) && (textWidget != null ==> unchanged(textWidget))
      ensures old(isActive) ==>
                && textWidget.backgroundListeners == old(textWidget.backgroundListeners) - {this}
                && textWidget.lineStarts == old(textWidget.lineStarts)
                && textWidget.charCount == old(textWidget.charCount)
                && textWidget.caretOffset == old(textWidget.caretOffset)
                && textWidget.background == old(textWidget.background)
                && line[0] == old(line[0])
                && (redraw ==>
                      && line[1] == NormalizedEnd(old(line[1]), textWidget.charCount)
                      && ok == HighlightRedraw(old(line[0]), old(line[1]), textWidget.charCount).Some?
                      && textWidget.redraws == old(textWidget.redraws)
                           + RedrawsOf(HighlightRedraw(old(line[0]), old(line[1]), textWidget.charCount)))
                && (!redraw ==> ok && line[1] == old(line[1]) && textWidget.redraws == old(textWidget.redraws))
    {
      ok := true;
      if isActive {
        isActive := false;
        textWidget.backgroundListeners := textWidget.backgroundListeners - {this};
        if redraw {
          ok := DrawHighlightLine();
        }
      }
    }

    /** Forgets the widget; later background queries do nothing. */
    method Dispose()
      modifies this`textWidget
      ensures textWidget == null
    {
      textWidget := null;
    }

    /**
     * The line-change branch of Paint: redraws the old line if one was
     * recorded and still starts in the text, records the caret's line and
     * redraws it. Neither redraw is rejected by the widget.
     */
    method MoveHighlight()
      requires line.Length == 2 && -1 <= line[0] && (line[1] != -1 ==> 0 <= line[0] < line[1])
      requires textWidget != null && textWidget.Valid()
      requires 0 <= lineNumber < |textWidget.lineStarts| && currentOffset == textWidget.lineStarts[lineNumber]
      modifies line, textWidget`redraws
      ensures line[0] == currentOffset
      ensures line[1] != -1 ==> 0 <= line[0] < line[1]
      ensures var next := NextLineStart(textWidget.lineStarts, lineNumber);
              var cleared := old(line[0]) != -1 && old(line[0]) <= textWidget.charCount;
              && line[1] == NormalizedEnd(next, textWidget.charCount)
              && HighlightRedraw(currentOffset, next, textWidget.charCount).Some?
              && (cleared ==> HighlightRedraw(old(line[0]), old(line[1]), textWidget.charCount).Some?)
              && textWidget.redraws == old(textWidget.redraws)
                   + (if cleared then RedrawsOf(HighlightRedraw(old(line[0]), old(line[1]), textWidget.charCount)) else [])
                   + RedrawsOf(HighlightRedraw(currentOffset, next, textWidget.charCount))
    {
      ghost var line0, line1 := line[0], line[1];
      if line[0] != -1 {
        if line[0] <= textWidget.charCount {
          RecordedLineRedrawn(line0, line1, textWidget.charCount);
        }
        var cleared := ClearHighlightLine();
        assert cleared;
      }
      UpdateHighlightLine();
      assert line[1] == -1 || line[0] < line[1] by {
        assert lineNumber + 1 < |textWidget.lineStarts| ==>
                 textWidget.lineStarts[lineNumber] < textWidget.lineStarts[lineNumber + 1];
      }
      RecordedLineRedrawn(line[0], line[1], textWidget.charCount);
      var drawn := DrawHighlightLine();
      assert drawn;
    }

    /**
     * Activates the painter (registering it with the widget on the
     * inactive-to-active step) and, when the caret is on another line than
     * last time, moves the highlight there.
     */
    method Paint(reason: int)
      requires Valid() && textWidget != null && textWidget.Valid()
      modifies this`isActive, this`lastOffset, this`currentOffset, this`lineNumber, line,
               textWidget`backgroundListeners, textWidget`redraws
      ensures Valid() && isActive
      ensures textWidget.backgroundListeners
           == if old(isActive) then old(textWidget.backgroundListeners) else old(textWidget.backgroundListeners) + {this}
      ensures lineNumber == LineAtOffset(textWidget.lineStarts, ClampCaret(textWidget.caretOffset, textWidget.charCount))
      ensures lastOffset == CaretLineStart(textWidget.lineStarts, textWidget.charCount, textWidget.caretOffset)
      ensures line[0] == lastOffset
      ensures old(lastOffset) == lastOffset ==>
                line[1] == old(line[1]) && textWidget.redraws == old(textWidget.redraws)
      ensures old(lastOffset) != lastOffset ==>
                var cleared := old(line[0]) != -1 && old(line[0]) <= textWidget.charCount;
                var next := NextLineStart(textWidget.lineStarts, lineNumber);
                && line[1] == NormalizedEnd(next, textWidget.charCount)
                && HighlightRedraw(lastOffset, next, textWidget.charCount).Some?
                && (cleared ==> HighlightRedraw(old(line[0]), old(line[1]), textWidget.charCount).Some?)
                && textWidget.redraws == old(textWidget.redraws)
                     + (if cleared then RedrawsOf(HighlightRedraw(old(line[0]), old(line[1]), textWidget.charCount)) else [])
                     + RedrawsOf(HighlightRedraw(lastOffset, next, textWidget.charCount))
    {
      if !isActive {
        isActive := true;
        textWidget.backgroundListeners := textWidget.backgroundListeners + {this};
      }
      var same := IsSameLine();
      if !same {
        MoveHighlight();
      }
    }
  }
}
