/**
 * The modal input layer of the dashboard: the four modes, the visual-mode
 * range selection, the `:` command line with its history, and the `/`
 * search state with cyclic match navigation.
 */
module Modes {

  import opened Wrappers
  import opened Text
  import opened Bounded
  import opened Keys

  datatype Mode = Normal | Visual | Command | Search

  /** The label shown in the status bar. */
  function DisplayName(mode: Mode): (r: String)
    ensures |r| >= 6 && forall i :: 0 <= i < |r| ==> 'A' <= r[i] <= 'Z'
  {
    match mode
    case Normal => "NORMAL"
    case Visual => "VISUAL"
    case Command => "COMMAND"
    case Search => "SEARCH"
  }

  /** Different modes are shown with different labels. */
  lemma DisplayNameInjective(a: Mode, b: Mode)
    requires a != b
    ensures DisplayName(a) != DisplayName(b)
  {
  }

  // ----- visual selection -----

  /** The indices `lo <= i < hi`. */
  function HalfOpen(lo: nat, hi: nat): (r: set<nat>)
    ensures forall i :: i in r <==> lo <= i < hi
    decreases hi
  {
    if hi <= lo then {} else HalfOpen(lo, hi - 1) + {hi - 1}
  }

  /** Every index from `a` to `b` inclusive, whichever is smaller. */
  function Range(a: nat, b: nat): (r: set<nat>)
    ensures forall i :: i in r <==> (a <= i <= b || b <= i <= a)
  {
    if a <= b then HalfOpen(a, b + 1) else HalfOpen(b, a + 1)
  }

  class VisualSelection {
    var startIndex: nat
    var currentIndex: nat
    var selectedIndices: set<nat>

    /** The selection is exactly the rows between the anchor and the cursor. */
    ghost predicate Valid()
      reads this
    {
      selectedIndices == Range(startIndex, currentIndex)
    }

    constructor (startIndex: nat)
      ensures this.startIndex == startIndex && currentIndex == startIndex
      ensures selectedIndices == {startIndex}
      ensures Valid()
    {
      this.startIndex := startIndex;
      currentIndex := startIndex;
      selectedIndices := {startIndex};
    }

    /** Moves the cursor end to `index` and reselects the whole range. */
    method ExtendTo(index: nat)
      modifies this`currentIndex, this`selectedIndices
      ensures currentIndex == index
      ensures selectedIndices == Range(startIndex, index)
      ensures Valid()
    {
      currentIndex := index;
      selectedIndices := {};
      var start := if startIndex < index then startIndex else index;
      var end := if startIndex < index then index else startIndex;
      var i := start;
      while i <= end
        invariant start <= i <= end + 1
        invariant currentIndex == index
        invariant selectedIndices == HalfOpen(start, i)
      {
        selectedIndices := selectedIndices + {i};
        i := i + 1;
      }
    }

    function IsSelected(index: nat): (r: bool)
      reads this
      requires Valid()
      ensures r <==> (startIndex <= index <= currentIndex || currentIndex <= index <= startIndex)
    {
      index in selectedIndices
    }
  }

  // ----- command line -----

  const MaxHistory: nat := 100

  /** `String::insert`: `c` placed before position `i`. */
  function InsertAt(s: String, i: nat, c: char): (r: String)
    requires i <= |s|
    ensures |r| == |s| + 1 && r[i] == c
  {
    s[..i] + [c] + s[i..]
  }

  /** `String::remove`: the character at `i` taken out. */
  function RemoveAt(s: String, i: nat): (r: String)
    requires i < |s|
    ensures |r| + 1 == |s|
  {
    s[..i] + s[i + 1..]
  }

  /** Typing a character and erasing it again restores the line. */
  lemma RemoveInserted(s: String, i: nat, c: char)
    requires i <= |s|
    ensures RemoveAt(InsertAt(s, i, c), i) == s
  {
    var t := InsertAt(s, i, c);
    assert t[..i] == s[..i];
    assert t[i + 1..] == s[i..];
  }

  /** A history: no empty entry, no duplicate, at most 100 entries. */
  predicate HistoryOk(history: seq<String>) {
    && |history| <= MaxHistory
    && (forall i :: 0 <= i < |history| ==> history[i] != [])
    && (forall i, j :: 0 <= i < j < |history| ==> history[i] != history[j])
  }

  /** The history after `add_to_history(command)`. */
  function AddedToHistory(history: seq<String>, command: String): (r: seq<String>)
  {
    if command == [] || command in history then history
    else LastN(history + [command], MaxHistory)
  }

  /** Adding keeps a history well formed, and a new command becomes the
      newest entry. */
  lemma AddedToHistoryOk(history: seq<String>, command: String)
    requires HistoryOk(history)
    ensures HistoryOk(AddedToHistory(history, command))
    ensures command != [] ==> command in AddedToHistory(history, command)
    ensures command != [] && command !in history ==>
      AddedToHistory(history, command)[|AddedToHistory(history, command)| - 1] == command
    ensures |AddedToHistory(history, command)| >= |history|
  {
    var h := history + [command];
    if command != [] && command !in history {
      var r := LastN(h, MaxHistory);
      assert r == h[|h| - |r|..];
      forall i, j | 0 <= i < j < |r| ensures r[i] != r[j] {
        assert r[i] == h[|h| - |r| + i] && r[j] == h[|h| - |r| + j];
      }
      forall i | 0 <= i < |r| ensures r[i] != [] {
        assert r[i] == h[|h| - |r| + i];
      }
      assert r[|r| - 1] == command;
    }
  }

  /** What moving through the history does to the index and the line.
      `up` goes to older entries; going down past the newest clears the line. */
  function Navigate(history: seq<String>, index: Option<nat>, input: String, up: bool): (r: (Option<nat>, String))
    requires index.Some? ==> index.value < |history|
    ensures r.0.Some? ==> r.0.value < |history|
  {
    if history == [] then (index, input)
    else if up then
      match index
      case None => (Some(|history| - 1), history[|history| - 1])
      case Some(i) => if i > 0 then (Some(i - 1), history[i - 1]) else (index, input)
    else
      match index
      case Some(i) => if i < |history| - 1 then (Some(i + 1), history[i + 1]) else (None, [])
      case None => (index, input)
  }

  /** Whenever navigation moves, the line shows the history entry it lands
      on, and going down from the newest entry leaves an empty line. */
  lemma NavigateShowsEntry(history: seq<String>, index: Option<nat>, input: String, up: bool)
    requires index.Some? ==> index.value < |history|
    ensures var r := Navigate(history, index, input, up);
      && (r.0.Some? && r.0 != index ==> r.1 == history[r.0.value])
      && (r.0.None? && index.Some? ==> r.1 == [])
      && (r.0 == index ==> r.1 == input)
  {
  }

  /** Up then down returns to where one was (the line included); from the
      fresh prompt it returns to an empty line. */
  lemma UpThenDown(history: seq<String>, index: Option<nat>, input: String)
    requires index.Some? ==> index.value < |history|
    requires index.Some? ==> index.value > 0 && input == history[index.value]
    requires history != []
    ensures var up := Navigate(history, index, input, true);
      Navigate(history, up.0, up.1, false) == if index.None? then (None, []) else (index, input)
  {
  }

  class CommandState {
    var input: String
    var cursorPos: nat
    var history: seq<String>
    var historyIndex: Option<nat>

    ghost predicate Valid()
      reads this
    {
      && cursorPos <= |input|
      && HistoryOk(history)
      && (historyIndex.Some? ==> historyIndex.value < |history|)
    }

    constructor ()
      ensures input == [] && cursorPos == 0 && history == [] && historyIndex == None
      ensures Valid()
    {
      input := [];
      cursorPos := 0;
      history := [];
      historyIndex := None;
    }

    /** Empties the line; the history is kept. */
    method Clear()
      requires Valid()
      modifies this`input, this`cursorPos, this`historyIndex
      ensures input == [] && cursorPos == 0 && historyIndex == None
      ensures Valid()
    {
      input := [];
      cursorPos := 0;
      historyIndex := None;
    }

    method AddToHistory(command: String)
      requires Valid()
      modifies this`history
      ensures history == AddedToHistory(old(history), command)
      ensures Valid()
    {
      AddedToHistoryOk(history, command);
      if command != [] && command !in history {
        history := history + [command];
        if |history| > MaxHistory {
          history := history[1..];
        }
      }
    }

    /** Up/Down in the command line; the cursor goes to the end of the line
        unless the history is empty. */
    method NavigateHistory(up: bool)
      requires Valid()
      modifies this`input, this`cursorPos, this`historyIndex
      ensures (historyIndex, input) == Navigate(history, old(historyIndex), old(input), up)
      ensures history == [] ==> cursorPos == old(cursorPos)
      ensures history != [] ==> cursorPos == |input|
      ensures Valid()
    {
      if history == [] {
        return;
      }
      if up {
        match historyIndex
        case None =>
          historyIndex := Some(|history| - 1);
          input := history[|history| - 1];
        case Some(index) =>
          if index > 0 {
            historyIndex := Some(index - 1);
            input := history[index - 1];
          }
      } else {
        match historyIndex
        case Some(index) =>
          if index < |history| - 1 {
            historyIndex := Some(index + 1);
            input := history[index + 1];
          } else {
            historyIndex := None;
            input := [];
          }
        case None =>
      }
      cursorPos := |input|;
    }

    /**
     * Edits the line for one key and answers whether the key was consumed:
     * plain characters are inserted at the cursor, Backspace/Delete erase
     * around it, arrows, Home and End move it, Up/Down browse the history;
     * Ctrl+character and every other key are left to the caller.
     */
    method HandleKey(key: KeyEvent) returns (handled: bool)
      requires Valid()
      modifies this`input, this`cursorPos, this`historyIndex
      ensures Valid()
      ensures match key.code
        case Char(c) =>
          if key.modifiers.ctrl then
            !handled && input == old(input) && cursorPos == old(cursorPos) && historyIndex == old(historyIndex)
          else
            handled && input == InsertAt(old(input), old(cursorPos), c) &&
            cursorPos == old(cursorPos) + 1 && historyIndex == None
        case Backspace =>
          handled &&
          if old(cursorPos) > 0 then
            input == RemoveAt(old(input), old(cursorPos) - 1) && cursorPos == old(cursorPos) - 1 && historyIndex == None
          else
            input == old(input) && cursorPos == 0 && historyIndex == old(historyIndex)
        case Delete =>
          handled && cursorPos == old(cursorPos) &&
          if old(cursorPos) < |old(input)| then
            input == RemoveAt(old(input), old(cursorPos)) && historyIndex == None
          else
            input == old(input) && historyIndex == old(historyIndex)
        case Left =>
          handled && input == old(input) && historyIndex == old(historyIndex) &&
          cursorPos == SaturatingSub(old(cursorPos), 1)
        case Right =>
          handled && input == old(input) && historyIndex == old(historyIndex) &&
          cursorPos == if old(cursorPos) < |old(input)| then old(cursorPos) + 1 else old(cursorPos)
        case Home =>
          handled && input == old(input) && historyIndex == old(historyIndex) && cursorPos == 0
        case End =>
          handled && input == old(input) && historyIndex == old(historyIndex) && cursorPos == |input|
        case Up =>
          handled && (historyIndex, input) == Navigate(history, old(historyIndex), old(input), true) &&
          (history != [] ==> cursorPos == |input|) && (history == [] ==> cursorPos == old(cursorPos))
        case Down =>
          handled && (historyIndex, input) == Navigate(history, old(historyIndex), old(input), false) &&
          (history != [] ==> cursorPos == |input|) && (history == [] ==> cursorPos == old(cursorPos))
        case _ =>
          !handled && input == old(input) && cursorPos == old(cursorPos) && historyIndex == old(historyIndex)
    {
      match key.code
      case Char(c) =>
        if key.modifiers.ctrl {
          handled := false;
        } else {
          input := InsertAt(input, cursorPos, c);
          cursorPos := cursorPos + 1;
          historyIndex := None;
          handled := true;
        }
      case Backspace =>
        if cursorPos > 0 {
          cursorPos := cursorPos - 1;
          input := RemoveAt(input, cursorPos);
          historyIndex := None;
        }
        handled := true;
      case Delete =>
        if cursorPos < |input| {
          input := RemoveAt(input, cursorPos);
          historyIndex := None;
        }
        handled := true;
      case Left =>
        if cursorPos > 0 {
          cursorPos := cursorPos - 1;
        }
        handled := true;
      case Right =>
        if cursorPos < |input| {
          cursorPos := cursorPos + 1;
        }
        handled := true;
      case Home =>
        cursorPos := 0;
        handled := true;
      case End =>
        cursorPos := |input|;
        handled := true;
      case Up =>
        NavigateHistory(true);
        handled := true;
      case Down =>
        NavigateHistory(false);
        handled := true;
      case _ =>
        handled := false;
    }
  }

  // ----- search -----

  /** The match position `next_match` moves to from `current` among `n`. */
  function NextMatchIndex(current: Option<nat>, n: nat, forward: bool): (r: nat)
    requires n > 0
    requires current.Some? && !forward ==> current.value <= n
    ensures r < n
  {
    match current
    case None => 0
    case Some(i) => if forward then NextIndex(i, n) else PreviousIndex(i, n)
  }

  /** Forward and backward moves undo each other on a valid position. */
  lemma NextMatchInverse(i: nat, n: nat)
    requires i < n
    ensures NextMatchIndex(Some(NextMatchIndex(Some(i), n, true)), n, false) == i
    ensures NextMatchIndex(Some(NextMatchIndex(Some(i), n, false)), n, true) == i
  {
    NextPreviousInverse(i, n);
  }

  class SearchState {
    var query: String
    var isForward: bool
    var currentMatch: Option<nat>
    var matches: seq<nat>
    var lastQuery: String

    constructor ()
      ensures query == [] && isForward && currentMatch == None && matches == [] && lastQuery == []
    {
      query := [];
      isForward := true;
      currentMatch := None;
      matches := [];
      lastQuery := [];
    }

    method Clear()
      modifies this`query, this`currentMatch, this`matches
      ensures query == [] && currentMatch == None && matches == []
    {
      query := [];
      currentMatch := None;
      matches := [];
    }

    method SetQuery(query: String, isForward: bool)
      modifies this`query, this`isForward, this`matches, this`currentMatch
      ensures this.query == query && this.isForward == isForward
      ensures matches == [] && currentMatch == None
    {
      this.query := query;
      this.isForward := isForward;
      matches := [];
      currentMatch := None;
    }

    /**
     * Moves to the next match in the search direction, wrapping around,
     * and answers the row it names; `None` when there are no matches.
     * Going backward from a stale position past the end indexes out of
     * bounds in the original, which the precondition excludes.
     */
    method NextMatch() returns (r: Option<nat>)
      requires matches != [] && currentMatch.Some? && !isForward ==> currentMatch.value <= |matches|
      modifies this`currentMatch
      ensures matches == [] ==> r == None && currentMatch == old(currentMatch)
      ensures matches != [] ==>
        && currentMatch == Some(NextMatchIndex(old(currentMatch), |matches|, isForward))
        && r == Some(matches[currentMatch.value])
    {
      if matches == [] {
        return None;
      }
      match currentMatch
      case None =>
        currentMatch := Some(0);
        r := Some(matches[0]);
      case Some(index) =>
        var nextIndex := if isForward then (index + 1) % |matches|
          else if index == 0 then |matches| - 1
          else index - 1;
        currentMatch := Some(nextIndex);
        r := Some(matches[nextIndex]);
    }

    /** Installs a new match list; a first match becomes current only when
        none was, and an empty list drops the current one. */
    method UpdateMatches(matches: seq<nat>)
      modifies this`matches, this`currentMatch
      ensures this.matches == matches
      ensures matches != [] && old(currentMatch).None? ==> currentMatch == Some(0)
      ensures matches != [] && old(currentMatch).Some? ==> currentMatch == old(currentMatch)
      ensures matches == [] ==> currentMatch == None
    {
      this.matches := matches;
      if matches != [] && currentMatch.None? {
        currentMatch := Some(0);
      } else if matches == [] {
        currentMatch := None;
      }
    }
  }

  /**
   * A forward search that finds rows `first` and `second` and is then
   * confirmed with Enter (update, then one `next_match`) lands on the
   * second match: the update already made the first match current.
   */
  method ConfirmedSearchScenario(first: nat, second: nat) returns (landed: Option<nat>)
    ensures landed == Some(second)
  {
    var search := new SearchState();
    search.SetQuery("web", true);
    search.UpdateMatches([first, second]);
    landed := search.NextMatch();
  }
}
