/**
 * Offset arithmetic of the diagnostic log's viewport (DebugWidget in package
 * toplog): where tailing puts the view, the range the scroll handlers keep
 * the offset in, and which buffered lines writeLogLines shows.
 */
module Viewport {

  /** WindowHeaderSize: the view's first two rows are a header; h = height - 2 rows show lines. */
  const WINDOW_HEADER_SIZE: int := 2

  function Min(a: int, b: int): int {
    if a <= b then a else b
  }

  /** scrollToLastLogLine: the offset that puts the newest line on the last row, floored at 0. */
  function TailOffset(count: int, h: int): (r: nat)
    ensures r >= count - h
    ensures r == 0 || r == count - h
  {
    if count - h < 0 then 0 else count - h
  }

  /** The offsets the viewport is meant to stay within: 0 through max(0, count - h). */
  predicate InRange(offset: int, count: int, h: int) {
    0 <= offset <= TailOffset(count, h)
  }

  /** The guard of arrowDown and pageDown: there are lines below the window. */
  predicate BelowTail(offset: int, count: int, h: int) {
    offset < count && count - h > offset
  }

  /** pageDown as written: once past the tail the offset becomes count - h, which is not floored at 0. */
  function PageDownAsWritten(offset: int, count: int, h: int): (r: int)
    ensures !BelowTail(offset + h, count, h) ==> r == count - h
    ensures r == PageDownOffset(offset, count, h) <==> BelowTail(offset + h, count, h) || count - h >= 0
  {
    if BelowTail(offset + h, count, h) then offset + h else count - h
  }

  /** With fewer lines than rows, the page-down step written in the source leaves the range, below 0. */
  lemma PageDownAsWrittenUnderflows(offset: int, count: int, h: int)
    requires InRange(offset, count, h)
    requires 0 <= count < h
    ensures PageDownAsWritten(offset, count, h) == count - h < 0
    ensures !InRange(PageDownAsWritten(offset, count, h), count, h)
  {
  }

  /** The page-down step as intended: a page further down, or the tail offset once past it. */
  function PageDownOffset(offset: int, count: int, h: int): (r: int)
    ensures InRange(offset, count, h) && h >= 0 ==> InRange(r, count, h)
    ensures !BelowTail(offset + h, count, h) ==> r == TailOffset(count, h) && !BelowTail(r, count, h)
    ensures BelowTail(offset + h, count, h) ==> r == offset + h
  {
    if BelowTail(offset + h, count, h) then offset + h else TailOffset(count, h)
  }

  /**
   * The lines writeLogLines draws: from the offset on, at most h of them,
   * never past the newest. A negative offset would index before the first
   * line, which the source does not guard against.
   */
  function Window<T>(lines: seq<T>, offset: int, h: int): (r: seq<T>)
    requires 0 <= offset
    ensures |r| == if offset < |lines| && 0 < h then Min(h, |lines| - offset) else 0
    ensures forall k | 0 <= k < |r| :: r[k] == lines[offset + k]
  {
    if offset < |lines| && 0 < h then lines[offset..Min(offset + h, |lines|)] else []
  }

  /** When tailing, the window ends with the newest line and is as full as the buffer allows. */
  lemma TailWindowShowsNewest<T>(lines: seq<T>, h: int)
    requires 0 < h && lines != []
    ensures var r := Window(lines, TailOffset(|lines|, h), h);
            && |r| == Min(h, |lines|)
            && r == lines[|lines| - |r|..]
  {
  }
}
