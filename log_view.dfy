/**
 * The scrollable log pane of the log viewer: a bounded buffer of entries,
 * a scroll position that always names an existing line (or 0), a follow
 * mode that pins the view to the newest line, and a per-entry cache of
 * highlighted lines kept in step with the buffer.
 *
 * Time is passed in as a number (`now`); the highlighted lines themselves
 * are produced by the renderer, which is not part of this model.
 */
module SharedLogView {

  import opened Wrappers
  import opened Text
  import opened Bounded

  datatype LogLevel = Info | Warning | Error | Debug

  datatype LogEntry = LogEntry(timestamp: nat, message: String, level: LogLevel)

  /** The renderer's highlighted form of one entry. */
  type StyledLines = seq<String>

  /** The largest scroll position for a buffer of `count` entries. */
  function MaxScroll(count: nat): (r: nat)
    ensures count == 0 ==> r == 0
    ensures count > 0 ==> r < count && r + 1 == count
  {
    SaturatingSub(count, 1)
  }

  class LogView {
    const maxLogs: nat
    var logs: seq<LogEntry>
    var scrollPosition: nat
    var followMode: bool
    var parsedCache: seq<Option<StyledLines>>
    var lastRecolorTime: nat

    ghost predicate Valid()
      reads this
    {
      && |logs| <= maxLogs
      && |parsedCache| == |logs|
      && scrollPosition <= MaxScroll(|logs|)
    }

    constructor (maxLogs: nat, now: nat)
      ensures this.maxLogs == maxLogs && logs == [] && parsedCache == []
      ensures scrollPosition == 0 && followMode && lastRecolorTime == now
      ensures Valid()
    {
      this.maxLogs := maxLogs;
      logs := [];
      scrollPosition := 0;
      followMode := true;
      parsedCache := [];
      lastRecolorTime := now;
    }

    /**
     * Appends an entry (and an empty cache slot), drops the oldest entry
     * and its slot once over capacity, and in follow mode moves to the
     * newest line.
     */
    method AddLog(message: String, level: LogLevel, now: nat)
      requires Valid()
      modifies this`logs, this`parsedCache, this`scrollPosition
      ensures Valid()
      ensures logs == LastN(old(logs) + [LogEntry(now, message, level)], maxLogs)
      ensures parsedCache == LastN(old(parsedCache) + [None], maxLogs)
      ensures scrollPosition == if followMode then MaxScroll(|logs|) else old(scrollPosition)
    {
      logs := logs + [LogEntry(now, message, level)];
      parsedCache := parsedCache + [None];
      if |logs| > maxLogs {
        logs := logs[1..];
        if |parsedCache| > 0 {
          parsedCache := parsedCache[1..];
        }
      }
      if followMode {
        ScrollToBottom();
      }
    }

    /** One line up; leaving follow mode only when the view moves. */
    method ScrollUp()
      requires Valid()
      modifies this`scrollPosition, this`followMode
      ensures Valid()
      ensures old(scrollPosition) > 0 ==> scrollPosition == old(scrollPosition) - 1 && !followMode
      ensures old(scrollPosition) == 0 ==> scrollPosition == 0 && followMode == old(followMode)
    {
      if scrollPosition > 0 {
        scrollPosition := scrollPosition - 1;
        followMode := false;
      }
    }

    /** One line down, never past the last line; leaving follow mode only
        when the view moves. */
    method ScrollDown()
      requires Valid()
      modifies this`scrollPosition, this`followMode
      ensures Valid()
      ensures old(scrollPosition) < MaxScroll(|logs|) ==>
        scrollPosition == old(scrollPosition) + 1 && !followMode
      ensures old(scrollPosition) == MaxScroll(|logs|) ==>
        scrollPosition == old(scrollPosition) && followMode == old(followMode)
    {
      if scrollPosition < MaxScroll(|logs|) {
        scrollPosition := scrollPosition + 1;
        followMode := false;
      }
    }

    /** Up by a page, stopping at the top; always leaves follow mode. */
    method PageUp(visibleHeight: nat)
      requires Valid()
      modifies this`scrollPosition, this`followMode
      ensures Valid() && !followMode
      ensures scrollPosition == SaturatingSub(old(scrollPosition), visibleHeight)
    {
      if scrollPosition > visibleHeight {
        scrollPosition := scrollPosition - visibleHeight;
      } else {
        scrollPosition := 0;
      }
      followMode := false;
    }

    /** Down by a page, stopping at the last line; always leaves follow mode. */
    method PageDown(visibleHeight: nat)
      requires Valid()
      modifies this`scrollPosition, this`followMode
      ensures Valid() && !followMode
      ensures old(scrollPosition) + visibleHeight <= MaxScroll(|logs|) ==>
        scrollPosition == old(scrollPosition) + visibleHeight
      ensures old(scrollPosition) + visibleHeight > MaxScroll(|logs|) ==>
        scrollPosition == MaxScroll(|logs|)
    {
      var maxScroll := MaxScroll(|logs|);
      scrollPosition := if scrollPosition + visibleHeight < maxScroll then scrollPosition + visibleHeight else maxScroll;
      followMode := false;
    }

    method EnableFollow()
      requires Valid()
      modifies this`scrollPosition, this`followMode
      ensures Valid() && followMode && scrollPosition == MaxScroll(|logs|)
    {
      followMode := true;
      ScrollToBottom();
    }

    method ScrollToBottom()
      requires |logs| <= maxLogs && |parsedCache| == |logs|
      modifies this`scrollPosition
      ensures Valid() && scrollPosition == MaxScroll(|logs|)
    {
      scrollPosition := MaxScroll(|logs|);
    }

    method ScrollToTop()
      requires Valid()
      modifies this`scrollPosition
      ensures Valid() && scrollPosition == 0
    {
      scrollPosition := 0;
    }

    function GetScrollPosition(): (r: nat)
      reads this
      requires Valid()
      ensures r <= MaxScroll(GetLogCount())
    {
      scrollPosition
    }

    function GetLogCount(): (r: nat)
      reads this
      requires Valid()
      ensures r <= maxLogs
    {
      |logs|
    }

    /** Jumps to `position`, clamped to the last line; follow mode is kept. */
    method SetScrollPosition(position: nat)
      requires Valid()
      modifies this`scrollPosition
      ensures Valid()
      ensures position <= MaxScroll(|logs|) ==> scrollPosition == position
      ensures position > MaxScroll(|logs|) ==> scrollPosition == MaxScroll(|logs|)
    {
      scrollPosition := if position < MaxScroll(|logs|) then position else MaxScroll(|logs|);
    }
  }

  /**
   * Twenty lines into a ten-line view, then top, up twice, down once:
   * the view stays at the top on the way up, reaches line 1 going down,
   * and the bottom is past the top.
   */
  method ScrollingScenario() returns (afterUps: nat, afterDown: nat, bottom: nat, top: nat)
    ensures afterUps == 0 && afterDown == 1 && bottom > 0 && top == 0
  {
    var view := new LogView(10, 0);
    var i := 0;
    while i < 20
      invariant 0 <= i <= 20
      invariant view.Valid() && view.maxLogs == 10
      invariant |view.logs| == if i < 10 then i else 10
      modifies view
    {
      view.AddLog("Log line " + NatToString(i), Info, i);
      i := i + 1;
    }
    view.ScrollToTop();
    view.ScrollUp();
    view.ScrollUp();
    afterUps := view.GetScrollPosition();
    view.ScrollDown();
    afterDown := view.GetScrollPosition();
    view.ScrollToBottom();
    bottom := view.GetScrollPosition();
    view.ScrollToTop();
    top := view.GetScrollPosition();
  }
}
