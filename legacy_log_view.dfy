/**
 * The log pane of the original binary: a bounded buffer with a scroll
 * position that every new entry resets to the newest line (there is no
 * follow mode to leave).
 */
module LegacyLogView {

  import opened Text
  import opened Bounded
  import opened SharedLogView

  class LogView {
    const maxLogs: nat
    var logs: seq<LogEntry>
    var scrollPosition: nat

    ghost predicate Valid()
      reads this
    {
      |logs| <= maxLogs && scrollPosition <= MaxScroll(|logs|)
    }

    constructor (maxLogs: nat)
      ensures this.maxLogs == maxLogs && logs == [] && scrollPosition == 0
      ensures Valid()
    {
      this.maxLogs := maxLogs;
      logs := [];
      scrollPosition := 0;
    }

    /** Appends, drops the oldest entry once over capacity, and always
        moves to the newest line. */
    method AddLog(message: String, level: LogLevel, now: nat)
      requires Valid()
      modifies this
      ensures Valid()
      ensures logs == LastN(old(logs) + [LogEntry(now, message, level)], maxLogs)
      ensures scrollPosition == MaxScroll(|logs|)
    {
      logs := logs + [LogEntry(now, message, level)];
      if |logs| > maxLogs {
        logs := logs[1..];
      }
      ScrollToBottom();
    }

    method ScrollUp()
      requires Valid()
      modifies this`scrollPosition
      ensures Valid()
      ensures scrollPosition == SaturatingSub(old(scrollPosition), 1)
    {
      if scrollPosition > 0 {
        scrollPosition := scrollPosition - 1;
      }
    }

    method ScrollDown()
      requires Valid()
      modifies this`scrollPosition
      ensures Valid()
      ensures old(scrollPosition) < MaxScroll(|logs|) ==> scrollPosition == old(scrollPosition) + 1
      ensures old(scrollPosition) == MaxScroll(|logs|) ==> scrollPosition == old(scrollPosition)
    {
      if scrollPosition < MaxScroll(|logs|) {
        scrollPosition := scrollPosition + 1;
      }
    }

    method ScrollToBottom()
      requires |logs| <= maxLogs
      modifies this`scrollPosition
      ensures Valid() && scrollPosition == MaxScroll(|logs|)
    {
      scrollPosition := MaxScroll(|logs|);
    }

    method ScrollToTop()
      requires Valid()
      modifies this`scrollPosition
      ensures Valid() && scrollPosition == 0
    {
      scrollPosition := 0;
    }

    function GetScrollPosition(): (r: nat)
      reads this
      requires Valid()
      ensures r <= MaxScroll(|logs|)
    {
      scrollPosition
    }
  }
}
