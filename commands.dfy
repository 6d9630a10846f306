/**
 * The `:` command interpreter: quitting, jumping to a line, running a
 * docker operation on the selected or named containers, showing logs or
 * inspect output, and a de-duplicated, capped history of the commands
 * entered.
 *
 * The container list is read through an `AppView` snapshot of the list
 * state's queries; the outcome of a refresh and the configuration a
 * reload reads are parameters, and so is regular-expression matching.
 */
module Commands {

  import opened Wrappers
  import opened Text
  import opened Process
  import opened Bounded
  import opened Containers
  import Config

  datatype CommandResult =
    | Success(message: String)
    | Error(message: String)
    | Navigation(index: nat)
    | Quit
    | ConfigReload(config: Config.Config)

  /** What the interpreter reads from the list state: the number of rows
      on screen, the containers on screen and the selected one. */
  datatype AppView = AppView(displayedCount: nat, displayed: seq<Container>, selected: Option<Container>)

  /** The regex engine: whether a pattern compiles, and whether a compiled
      pattern matches a text. */
  datatype Regex = Regex(compiles: String -> bool, isMatch: (String, String) -> bool)

  const MaxHistory: nat := 100

  // ---------------------------------------------------------------- history

  /** The history after recording `command`: a repeated command is not
      recorded again, and the oldest entry goes once there are over 100. */
  function Recorded(history: seq<String>, command: String): (r: seq<String>)
  {
    if command in history then history else LastN(history + [command], MaxHistory)
  }

  predicate Distinct(history: seq<String>) {
    forall i, j :: 0 <= i < j < |history| ==> history[i] != history[j]
  }

  /** Recording keeps the history duplicate-free and at most 100 long, and
      the command is in it afterwards, as its newest entry when it is new. */
  lemma RecordedSpec(history: seq<String>, command: String)
    requires Distinct(history) && |history| <= MaxHistory
    ensures Distinct(Recorded(history, command)) && |Recorded(history, command)| <= MaxHistory
    ensures command in Recorded(history, command)
    ensures command !in history ==> Recorded(history, command)[|Recorded(history, command)| - 1] == command
    ensures command !in history && |history| < MaxHistory ==> Recorded(history, command) == history + [command]
    ensures command !in history && |history| == MaxHistory ==> Recorded(history, command) == history[1..] + [command]
  {
    if command !in history {
      var h := history + [command];
      var r := LastN(h, MaxHistory);
      assert Recorded(history, command) == r;
      DistinctSnoc(history, command);
      DistinctSuffix(h, |h| - |r|);
      if |history| < MaxHistory {
        assert r == h;
      } else {
        assert r == h[1..];
        assert h[1..] == history[1..] + [command];
      }
      assert r[|r| - 1] == command;
    }
  }

  /** Appending a new element keeps a sequence duplicate-free. */
  lemma DistinctSnoc(history: seq<String>, command: String)
    requires Distinct(history) && command !in history
    ensures Distinct(history + [command])
  {
    var h := history + [command];
    forall i, j | 0 <= i < j < |h| ensures h[i] != h[j] {
      if j == |history| {
        assert h[i] == history[i];
      }
    }
  }

  /** Dropping a prefix keeps a sequence duplicate-free. */
  lemma DistinctSuffix(h: seq<String>, k: nat)
    requires Distinct(h) && k <= |h|
    ensures Distinct(h[k..])
  {
    var r := h[k..];
    forall i, j | 0 <= i < j < |r| ensures r[i] != r[j] {
      assert r[i] == h[k + i] && r[j] == h[k + j];
    }
  }

  // ------------------------------------------------------- container specs

  /** The containers of `cs` that `keep` accepts, in order. */
  function FilterBy(cs: seq<Container>, keep: Container -> bool): (r: seq<Container>)
    ensures |r| <= |cs|
    decreases |cs|
  {
    if cs == [] then []
    else (if keep(cs[0]) then [cs[0]] else []) + FilterBy(cs[1..], keep)
  }

  lemma {:induction false} FilterBySpec(cs: seq<Container>, keep: Container -> bool)
    ensures forall c :: c in FilterBy(cs, keep) <==> c in cs && keep(c)
    decreases |cs|
  {
    if cs != [] {
      FilterBySpec(cs[1..], keep);
      assert cs == [cs[0]] + cs[1..];
    }
  }

  predicate IsRegexSpec(spec: String) {
    |spec| > 2 && spec[0] == '/' && spec[|spec| - 1] == '/'
  }

  predicate IsWildcardSpec(spec: String) {
    '*' in spec || '?' in spec
  }

  /** The anchored regex a wildcard spec stands for: `*` is any run and
      `?` any one character. */
  function WildcardPattern(spec: String): String {
    "^" + Replace(Replace(spec, "*", ".*"), "?", ".") + "$"
  }

  /**
   * The containers a command argument names: `/re/` matches name or image
   * by regex, a spec with `*` or `?` matches whole names as a wildcard, and
   * anything else, including a regex that does not compile, picks the
   * containers whose name starts with it.
   */
  function ResolveContainerSpec(spec: String, cs: seq<Container>, regex: Regex): (r: seq<Container>)
    ensures |r| <= |cs|
  {
    if IsRegexSpec(spec) && regex.compiles(spec[1..|spec| - 1]) then
      var pattern := spec[1..|spec| - 1];
      FilterBy(cs, (c: Container) => regex.isMatch(pattern, c.name) || regex.isMatch(pattern, c.image))
    else if IsWildcardSpec(spec) && regex.compiles(WildcardPattern(spec)) then
      FilterBy(cs, (c: Container) => regex.isMatch(WildcardPattern(spec), c.name))
    else
      FilterBy(cs, (c: Container) => c.name == spec || IsPrefix(spec, c.name))
  }

  /** A plain spec picks exactly the displayed containers whose name
      starts with it, in display order. */
  lemma ResolvePlainSpec(spec: String, cs: seq<Container>, regex: Regex)
    requires !IsRegexSpec(spec) && !IsWildcardSpec(spec)
    ensures ResolveContainerSpec(spec, cs, regex) == FilterBy(cs, (c: Container) => IsPrefix(spec, c.name))
    ensures forall c :: c in ResolveContainerSpec(spec, cs, regex) <==> c in cs && IsPrefix(spec, c.name)
  {
    FilterByAgree(cs, (c: Container) => c.name == spec || IsPrefix(spec, c.name), (c: Container) => IsPrefix(spec, c.name));
    FilterBySpec(cs, (c: Container) => IsPrefix(spec, c.name));
  }

  lemma {:induction false} FilterByAgree(cs: seq<Container>, p: Container -> bool, q: Container -> bool)
    requires forall c :: c in cs ==> p(c) == q(c)
    ensures FilterBy(cs, p) == FilterBy(cs, q)
    decreases |cs|
  {
    if cs != [] {
      FilterByAgree(cs[1..], p, q);
    }
  }

  // ------------------------------------------------------ docker operations

  /** One `docker <operation> <name>` call and the message it yields. */
  function DockerOperation(operation: String, name: String, docker: Docker): (r: CommandResult)
    ensures r.Success? || r.Error?
    ensures r.Success? <==> docker([operation, name]).Exited? && docker([operation, name]).success
  {
    match docker([operation, name])
    case Exited(true, _, _) => Success(operation + " " + name)
    case Exited(false, _, err) => Error("Failed to " + operation + " " + name + ": " + err)
    case SpawnFailed(e) => Error("Failed to execute docker " + operation + ": " + e)
  }

  /** The messages collected after applying `operation` to `cs` in order,
      on top of `acc`: successes first component, failures second. */
  function Applied(operation: String, cs: seq<Container>, docker: Docker, acc: (seq<String>, seq<String>))
    : (r: (seq<String>, seq<String>))
    ensures |r.0| + |r.1| == |acc.0| + |acc.1| + |cs|
    ensures IsPrefix2(acc.0, r.0) && IsPrefix2(acc.1, r.1)
    decreases |cs|
  {
    if cs == [] then acc
    else
      var prev := Applied(operation, cs[..|cs| - 1], docker, acc);
      match DockerOperation(operation, cs[|cs| - 1].name, docker)
      case Success(m) => (prev.0 + [m], prev.1)
      case Error(e) => (prev.0, prev.1 + [e])
  }

  predicate IsPrefix2(p: seq<String>, s: seq<String>) {
    |p| <= |s| && s[..|p|] == p
  }

  /** The messages collected over the arguments `args[..]`: an argument
      that names nothing adds one error, otherwise each container it names
      adds the outcome of its operation. */
  function Outcomes(operation: String, args: seq<String>, cs: seq<Container>, docker: Docker, regex: Regex)
    : (r: (seq<String>, seq<String>))
    ensures |r.0| + |r.1| >= |args|
    decreases |args|
  {
    if args == [] then ([], [])
    else
      var prev := Outcomes(operation, args[..|args| - 1], cs, docker, regex);
      var arg := args[|args| - 1];
      var matched := ResolveContainerSpec(arg, cs, regex);
      if matched == [] then (prev.0, prev.1 + ["No containers found matching: " + arg])
      else Applied(operation, matched, docker, prev)
  }

  /** Errors win; otherwise the successes; with neither, nothing happened. */
  function Aggregate(outcomes: (seq<String>, seq<String>)): (r: CommandResult)
    ensures r.Success? <==> outcomes.1 == [] && outcomes.0 != []
  {
    if outcomes.1 != [] then Error(Join(outcomes.1, "; "))
    else if outcomes.0 != [] then Success(Join(outcomes.0, "; "))
    else Error("No operations performed")
  }

  /** `stop`, `start` or `restart`: without arguments on the selected
      container, otherwise on every container each argument names. */
  function ContainerCommandResult(operation: String, args: seq<String>, view: AppView, docker: Docker, regex: Regex)
    : (r: CommandResult)
    ensures r.Success? || r.Error?
  {
    if args == [] then
      if view.selected.Some? then DockerOperation(operation, view.selected.value.name, docker)
      else Error("No container selected")
    else Aggregate(Outcomes(operation, args, view.displayed, docker, regex))
  }

  /** With arguments, the command always does or reports something, so
      "No operations performed" is never the answer. */
  lemma ArgumentsAlwaysReport(operation: String, args: seq<String>, view: AppView, docker: Docker, regex: Regex)
    requires args != []
    ensures ContainerCommandResult(operation, args, view, docker, regex) != Error("No operations performed") ||
            Outcomes(operation, args, view.displayed, docker, regex).1 != []
  {
  }

  /** An argument naming no container makes the whole command fail. */
  lemma {:induction false} UnmatchedArgumentFails(operation: String, args: seq<String>, view: AppView, docker: Docker,
                                                  regex: Regex, k: nat)
    requires k < |args| && ResolveContainerSpec(args[k], view.displayed, regex) == []
    ensures ContainerCommandResult(operation, args, view, docker, regex).Error?
  {
    OutcomesKeepErrors(operation, args, view.displayed, docker, regex, k);
  }

  lemma {:induction false} OutcomesKeepErrors(operation: String, args: seq<String>, cs: seq<Container>, docker: Docker,
                                              regex: Regex, k: nat)
    requires k < |args| && ResolveContainerSpec(args[k], cs, regex) == []
    ensures Outcomes(operation, args, cs, docker, regex).1 != []
    decreases |args|
  {
    var init := args[..|args| - 1];
    var prev := Outcomes(operation, init, cs, docker, regex);
    if k < |args| - 1 {
      assert init[k] == args[k];
      OutcomesKeepErrors(operation, init, cs, docker, regex, k);
      var matched := ResolveContainerSpec(args[|args| - 1], cs, regex);
      if matched != [] {
        var r := Applied(operation, matched, docker, prev);
        assert r.1[..|prev.1|] == prev.1;
      }
    }
  }

  // ------------------------------------------------ logs, inspect, exec, set

  /** The container a single-target command acts on: the selected one
      without arguments, else the first one the first argument names. */
  function TargetName(args: seq<String>, view: AppView, regex: Regex): (r: Result<String, String>)
    ensures args == [] ==> (r.Ok? <==> view.selected.Some?)
  {
    if args == [] then
      if view.selected.Some? then Ok(view.selected.value.name) else Err("No container selected")
    else
      var matched := ResolveContainerSpec(args[0], view.displayed, regex);
      if matched == [] then Err("No container found matching: " + args[0]) else Ok(matched[0].name)
  }

  function LogsResult(args: seq<String>, view: AppView, docker: Docker, regex: Regex): (r: CommandResult)
    ensures r.Success? || r.Error?
    ensures TargetName(args, view, regex).Err? ==> r == Error(TargetName(args, view, regex).error)
  {
    match TargetName(args, view, regex)
    case Err(e) => Error(e)
    case Ok(name) =>
      match docker(["logs", "--tail", "100", name])
      case Exited(true, out, _) => Success("Logs for " + name + ":\n" + out)
      case Exited(false, _, err) => Error("Failed to get logs: " + err)
      case SpawnFailed(e) => Error("Failed to execute docker logs: " + e)
  }

  function InspectResult(args: seq<String>, view: AppView, docker: Docker, regex: Regex): (r: CommandResult)
    ensures r.Success? || r.Error?
    ensures TargetName(args, view, regex).Err? ==> r == Error(TargetName(args, view, regex).error)
  {
    match TargetName(args, view, regex)
    case Err(e) => Error(e)
    case Ok(name) =>
      match docker(["inspect", name])
      case Exited(true, out, _) => Success("Inspect " + name + ":\n" + out)
      case Exited(false, _, err) => Error("Failed to inspect: " + err)
      case SpawnFailed(e) => Error("Failed to execute docker inspect: " + e)
  }

  /** `exec` only describes the command it would run; the shell defaults
      to `/bin/bash`. */
  function ExecResult(args: seq<String>, view: AppView, regex: Regex): (r: CommandResult)
    ensures r.Success? || r.Error?
    ensures args == [] ==> r == Error("Usage: :exec <container> [command]")
  {
    if args == [] then Error("Usage: :exec <container> [command]")
    else
      var matched := ResolveContainerSpec(args[0], view.displayed, regex);
      if matched == [] then Error("No container found matching: " + args[0])
      else
        var execCmd := if |args| > 1 then Join(args[1..], " ") else "/bin/bash";
        Success("Would execute: docker exec -it " + matched[0].name + " " + execCmd)
  }

  lemma ExecDefaultsToBash(spec: String, view: AppView, regex: Regex)
    requires ResolveContainerSpec(spec, view.displayed, regex) != []
    ensures ExecResult([spec], view, regex) ==
      Success("Would execute: docker exec -it " + ResolveContainerSpec(spec, view.displayed, regex)[0].name + " /bin/bash")
  {
  }

  function SetResult(args: seq<String>): (r: CommandResult)
    ensures r.Error? <==> args != [] && args[0] != "tabular"
  {
    if args == [] then Success("Available settings: tabular")
    else if args[0] == "tabular" then Success("Tabular mode settings not yet implemented")
    else Error("Unknown setting: " + args[0])
  }

  // --------------------------------------------------------------- dispatch

  predicate IsContainerOperation(cmd: String) {
    cmd == "stop" || cmd == "start" || cmd == "restart"
  }

  /**
   * The meaning of a trimmed, non-empty command line: quit, `$` or a line
   * number, or a command word with arguments.
   */
  function Dispatch(command: String, view: AppView, docker: Docker, regex: Regex,
                    refreshed: Result<Unit, String>, reloaded: Config.Config): (r: CommandResult)
    ensures r.Quit? <==> command == "q" || command == "quit"
    ensures r.Navigation? ==> r.index < view.displayedCount
    ensures r.ConfigReload? ==> r.config == reloaded
  {
    if command == "q" || command == "quit" then Quit
    else if command == "$" then
      if view.displayedCount > 0 then Navigation(view.displayedCount - 1) else Error("No containers available")
    else if ParseUsize(command).Some? then
      var n := ParseUsize(command).value;
      if 0 < n <= view.displayedCount then Navigation(n - 1) else Error("Invalid line number: " + NatToString(n))
    else
      var parts := SplitWhitespace(command);
      if parts == [] then Error("Empty command")
      else
        var cmd := parts[0];
        var args := parts[1..];
        if IsContainerOperation(cmd) then ContainerCommandResult(cmd, args, view, docker, regex)
        else if cmd == "logs" then LogsResult(args, view, docker, regex)
        else if cmd == "exec" then ExecResult(args, view, regex)
        else if cmd == "inspect" then InspectResult(args, view, docker, regex)
        else if cmd == "ps" || cmd == "refresh" then
          match refreshed
          case Ok(_) => Success("Containers refreshed")
          case Err(e) => Error("Failed to refresh: " + e)
        else if cmd == "set" then SetResult(args)
        else if cmd == "reload" || cmd == "config" then ConfigReload(reloaded)
        else Error("Unknown command: " + cmd)
  }

  /** A jump always lands on a row that is on screen. */
  lemma NavigationInRange(command: String, view: AppView, docker: Docker, regex: Regex,
                          refreshed: Result<Unit, String>, reloaded: Config.Config)
    requires Dispatch(command, view, docker, regex, refreshed, reloaded).Navigation?
    ensures Dispatch(command, view, docker, regex, refreshed, reloaded).index < view.displayedCount
  {
  }

  /** `:n` jumps to row n - 1 exactly when 1 <= n <= count; any other
      number is reported as an invalid line number. */
  lemma LineNumberJump(n: nat, view: AppView, docker: Docker, regex: Regex,
                       refreshed: Result<Unit, String>, reloaded: Config.Config)
    requires n < UsizeLimit
    ensures 0 < n <= view.displayedCount ==>
      Dispatch(NatToString(n), view, docker, regex, refreshed, reloaded) == Navigation(n - 1)
    ensures !(0 < n <= view.displayedCount) ==>
      Dispatch(NatToString(n), view, docker, regex, refreshed, reloaded) == Error("Invalid line number: " + NatToString(n))
  {
    ParseUsizeRoundTrip(n);
    NatToStringDigits(n);
    var s := NatToString(n);
    assert IsDigit(s[0]);
    assert s != "q" && s != "quit" && s != "$";
  }

  /** `:$` jumps to the last row, and fails on an empty list. */
  lemma LastRowJump(view: AppView, docker: Docker, regex: Regex,
                    refreshed: Result<Unit, String>, reloaded: Config.Config)
    ensures view.displayedCount > 0 ==> Dispatch("$", view, docker, regex, refreshed, reloaded) == Navigation(view.displayedCount - 1)
    ensures view.displayedCount == 0 ==> Dispatch("$", view, docker, regex, refreshed, reloaded) == Error("No containers available")
  {
  }

  /** Names of the command words the interpreter knows. */
  predicate KnownWord(w: String) {
    IsContainerOperation(w) || w == "logs" || w == "exec" || w == "inspect" || w == "ps" || w == "refresh" ||
    w == "set" || w == "reload" || w == "config" || w == "q" || w == "quit" || w == "$"
  }

  /** A single word that is neither a number nor a known command is
      reported by name. */
  lemma UnknownCommand(word: String, view: AppView, docker: Docker, regex: Regex,
                       refreshed: Result<Unit, String>, reloaded: Config.Config)
    requires word != [] && !IsDigit(word[0]) && word[0] != '+' && !KnownWord(word)
    requires forall k :: 0 <= k < |word| ==> !IsWhitespace(word[k])
    ensures Dispatch(word, view, docker, regex, refreshed, reloaded) == Error("Unknown command: " + word)
  {
    assert ParseUsize(word).None?;
    assert forall c :: c in word ==> c !in Whitespace;
    SplitNoSeparator(word, Whitespace);
    assert SplitWhitespace(word) == [word];
  }

  class CommandExecutor {
    var commandHistory: seq<String>

    ghost predicate Valid()
      reads this
    {
      Distinct(commandHistory) && |commandHistory| <= MaxHistory
    }

    constructor ()
      ensures commandHistory == [] && Valid()
    {
      commandHistory := [];
    }

    function GetHistory(): (r: seq<String>)
      reads this
      ensures r == commandHistory
    {
      commandHistory
    }

    method AddToHistory(command: String)
      requires Valid()
      modifies this`commandHistory
      ensures commandHistory == Recorded(old(commandHistory), command)
      ensures Valid()
    {
      RecordedSpec(commandHistory, command);
      if command !in commandHistory {
        commandHistory := commandHistory + [command];
        if |commandHistory| > MaxHistory {
          commandHistory := commandHistory[1..];
        }
      }
    }

    /**
     * Runs a `:` command: a blank line is refused and not recorded; any
     * other line is recorded, trimmed, and then interpreted.
     */
    method Execute(command: String, view: AppView, docker: Docker, regex: Regex,
                   refreshed: Result<Unit, String>, reloaded: Config.Config) returns (r: CommandResult)
      requires Valid()
      modifies this`commandHistory
      ensures Valid()
      ensures Trim(command) == [] ==> r == Error("Empty command") && commandHistory == old(commandHistory)
      ensures Trim(command) != [] ==>
        && commandHistory == Recorded(old(commandHistory), Trim(command))
        && r == Dispatch(Trim(command), view, docker, regex, refreshed, reloaded)
    {
      var trimmed := Trim(command);
      if trimmed == [] {
        return Error("Empty command");
      }
      AddToHistory(trimmed);
      var parts := SplitWhitespace(trimmed);
      if trimmed != "q" && trimmed != "quit" && trimmed != "$" && ParseUsize(trimmed).None?
         && parts != [] && IsContainerOperation(parts[0]) {
        r := ExecuteContainerCommand(parts[0], parts[1..], view, docker, regex);
      } else {
        r := Dispatch(trimmed, view, docker, regex, refreshed, reloaded);
      }
    }

    /** The loops of `stop`/`start`/`restart` over the arguments and the
        containers each names, collecting successes and failures. */
    static method ExecuteContainerCommand(operation: String, args: seq<String>, view: AppView, docker: Docker, regex: Regex)
      returns (r: CommandResult)
      ensures r == ContainerCommandResult(operation, args, view, docker, regex)
    {
      if args == [] {
        if view.selected.Some? {
          return DockerOperation(operation, view.selected.value.name, docker);
        }
        return Error("No container selected");
      }
      var containers := view.displayed;
      var results: seq<String> := [];
      var errors: seq<String> := [];
      for i := 0 to |args|
        invariant (results, errors) == Outcomes(operation, args[..i], containers, docker, regex)
      {
        assert args[..i + 1][..i] == args[..i];
        var arg := args[i];
        var matched := ResolveContainerSpec(arg, containers, regex);
        if matched == [] {
          errors := errors + ["No containers found matching: " + arg];
          continue;
        }
        ghost var before := (results, errors);
        for j := 0 to |matched|
          invariant (results, errors) == Applied(operation, matched[..j], docker, before)
        {
          assert matched[..j + 1][..j] == matched[..j];
          match DockerOperation(operation, matched[j].name, docker) {
            case Success(msg) => results := results + [msg];
            case Error(err) => errors := errors + [err];
          }
        }
        assert matched[..|matched|] == matched;
      }
      assert args[..|args|] == args;
      if errors != [] {
        r := Error(Join(errors, "; "));
      } else if results != [] {
        r := Success(Join(results, "; "));
      } else {
        r := Error("No operations performed");
      }
    }
  }
}
