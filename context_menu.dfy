/**
 * The popup menu of actions for the selected container or compose
 * project: which configured actions apply to the target, cycling through
 * them, and the shell command of the chosen one with the target's
 * details substituted for its placeholders.
 *
 * Regular-expression matching is a parameter: `RegexMatch(pattern, text)`
 * is `None` for a pattern that does not compile and `Some(matched)`
 * otherwise. Label lookups go through the docker oracle.
 */
module ContextMenu {

  import opened Wrappers
  import opened Text
  import opened Process
  import opened Bounded
  import opened Containers
  import opened ComposeView

  type RegexMatch = (String, String) -> Option<bool>

  datatype ContextMenuMatcher =
    | NamePattern(pattern: String)
    | ImagePattern(pattern: String)
    | LabelPattern(labelName: String, value: Option<String>)
    | ComposeProjectMatcher

  datatype ContextMenuAction = ContextMenuAction(
    labelText: String,
    command: String,
    matchers: seq<ContextMenuMatcher>,
    enabledWhen: Option<String>)

  /** The condition an action may require of its container: `running`
      needs "up" in the status, `stopped` needs it absent, and anything
      else always holds. */
  predicate CheckEnabledCondition(condition: String, c: Container)
    ensures !CheckEnabledCondition(condition, c) ==> condition == "running" || condition == "stopped"
    ensures condition == "running" ==> (CheckEnabledCondition(condition, c) <==> Contains(ToLower(c.status), "up"))
    ensures condition == "stopped" ==> (CheckEnabledCondition(condition, c) <==> !Contains(ToLower(c.status), "up"))
  {
    if condition == "running" then Contains(ToLower(c.status), "up")
    else if condition == "stopped" then !Contains(ToLower(c.status), "up")
    else true
  }

  lemma EnabledConditionCases(c: Container)
    ensures CheckEnabledCondition("running", c) != CheckEnabledCondition("stopped", c)
    ensures CheckEnabledCondition("paused", c)
  {
  }

  /** The docker query for one label of one container. */
  function LabelArgs(containerName: String, labelName: String): (r: seq<String>)
    ensures |r| == 4 && r[0] == "inspect" && r[3] == containerName
  {
    ["inspect", "--format", "{{index .Config.Labels \"" + labelName + "\"}}", containerName]
  }

  /** A label check holds when the query succeeds and the trimmed value is
      the expected one, or, with nothing expected, is not empty. */
  predicate CheckContainerLabel(docker: Docker, containerName: String, labelName: String, expected: Option<String>)
    ensures CheckContainerLabel(docker, containerName, labelName, expected) ==>
      docker(LabelArgs(containerName, labelName)).Exited? && docker(LabelArgs(containerName, labelName)).success
    ensures CheckContainerLabel(docker, containerName, labelName, expected) && expected.Some? ==>
      NoOuterWhitespace(expected.value)
  {
    match docker(LabelArgs(containerName, labelName))
    case Exited(true, out, _) =>
      if expected.Some? then Trim(out) == expected.value else Trim(out) != []
    case _ => false
  }

  /** An expected value with outer whitespace can never match. */
  lemma PaddedExpectationNeverMatches(docker: Docker, name: String, labelName: String, expected: String)
    requires expected != [] && (IsWhitespace(expected[0]) || IsWhitespace(expected[|expected| - 1]))
    ensures !CheckContainerLabel(docker, name, labelName, Some(expected))
  {
    match docker(LabelArgs(name, labelName)) {
      case Exited(success, out, _) =>
        if success {
          var v := Trim(out);
          assert NoOuterWhitespace(v);
        }
      case SpawnFailed(_) =>
    }
  }

  /** Whether one matcher picks out the target. */
  predicate Fires(m: ContextMenuMatcher, container: Option<Container>, project: Option<ComposeProject>,
                  docker: Docker, regex: RegexMatch) {
    match m
    case NamePattern(p) => container.Some? && regex(p, container.value.name) == Some(true)
    case ImagePattern(p) => container.Some? && regex(p, container.value.image) == Some(true)
    case LabelPattern(l, v) => container.Some? && CheckContainerLabel(docker, container.value.name, l, v)
    case ComposeProjectMatcher => project.Some?
  }

  /** The verdict of the first matcher that fires: a compose matcher
      accepts outright, the others defer to the enabling condition. */
  predicate FiredVerdict(m: ContextMenuMatcher, enabledWhen: Option<String>, container: Option<Container>)
    requires !m.ComposeProjectMatcher? ==> container.Some?
  {
    m.ComposeProjectMatcher? || enabledWhen.None? || CheckEnabledCondition(enabledWhen.value, container.value)
  }

  /** The matcher loop: the first matcher that fires decides; if none
      fires the action does not apply. */
  predicate MatchersVerdict(ms: seq<ContextMenuMatcher>, enabledWhen: Option<String>, container: Option<Container>,
                            project: Option<ComposeProject>, docker: Docker, regex: RegexMatch)
    decreases |ms|
  {
    if ms == [] then false
    else if Fires(ms[0], container, project, docker, regex) then FiredVerdict(ms[0], enabledWhen, container)
    else MatchersVerdict(ms[1..], enabledWhen, container, project, docker, regex)
  }

  /** With no matcher firing, the action is not offered. */
  lemma {:induction false} NoneFiresRejects(ms: seq<ContextMenuMatcher>, enabledWhen: Option<String>,
                                            container: Option<Container>, project: Option<ComposeProject>,
                                            docker: Docker, regex: RegexMatch)
    requires forall j :: 0 <= j < |ms| ==> !Fires(ms[j], container, project, docker, regex)
    ensures !MatchersVerdict(ms, enabledWhen, container, project, docker, regex)
    decreases |ms|
  {
    if ms != [] {
      NoneFiresRejects(ms[1..], enabledWhen, container, project, docker, regex);
    }
  }

  /** The first matcher that fires decides the verdict; the ones after it
      are never consulted. */
  lemma {:induction false} FirstFiringDecides(ms: seq<ContextMenuMatcher>, i: nat, enabledWhen: Option<String>,
                                              container: Option<Container>, project: Option<ComposeProject>,
                                              docker: Docker, regex: RegexMatch)
    requires i < |ms| && Fires(ms[i], container, project, docker, regex)
    requires forall j :: 0 <= j < i ==> !Fires(ms[j], container, project, docker, regex)
    ensures MatchersVerdict(ms, enabledWhen, container, project, docker, regex) ==
            FiredVerdict(ms[i], enabledWhen, container)
    decreases i
  {
    if i > 0 {
      assert !Fires(ms[0], container, project, docker, regex);
      FirstFiringDecides(ms[1..], i - 1, enabledWhen, container, project, docker, regex);
    }
  }

  /** Whether `action` is offered for the target. */
  predicate MatchesAction(action: ContextMenuAction, container: Option<Container>, project: Option<ComposeProject>,
                          docker: Docker, regex: RegexMatch)
    ensures action.matchers == [] && action.enabledWhen.None? ==> MatchesAction(action, container, project, docker, regex)
    ensures action.matchers == [] && action.enabledWhen.Some? && container.None? ==>
      !MatchesAction(action, container, project, docker, regex)
  {
    if action.matchers == [] then
      if action.enabledWhen.Some? then
        container.Some? && CheckEnabledCondition(action.enabledWhen.value, container.value)
      else true
    else MatchersVerdict(action.matchers, action.enabledWhen, container, project, docker, regex)
  }

  /** An action without matchers or condition is always offered; one with
      a condition but no container never is; a lone compose matcher is
      offered exactly when a project is targeted. */
  lemma MatchesActionCases(action: ContextMenuAction, container: Option<Container>, project: Option<ComposeProject>,
                           docker: Docker, regex: RegexMatch)
    ensures action.matchers == [] && action.enabledWhen.None? ==> MatchesAction(action, container, project, docker, regex)
    ensures action.matchers == [] && action.enabledWhen.Some? && container.None? ==>
      !MatchesAction(action, container, project, docker, regex)
    ensures action.matchers == [ComposeProjectMatcher] ==>
      (MatchesAction(action, container, project, docker, regex) <==> project.Some?)
  {
    if action.matchers == [ComposeProjectMatcher] {
      var ms := action.matchers;
      assert ms[0] == ComposeProjectMatcher && ms[1..] == [];
      assert Fires(ms[0], container, project, docker, regex) <==> project.Some?;
      assert !MatchersVerdict(ms[1..], action.enabledWhen, container, project, docker, regex);
    }
  }

  /** A name or image matcher whose pattern does not compile never fires. */
  lemma BadPatternNeverFires(m: ContextMenuMatcher, container: Option<Container>, project: Option<ComposeProject>,
                             docker: Docker, regex: RegexMatch)
    requires m.NamePattern? || m.ImagePattern?
    requires container.Some? && m.NamePattern? ==> regex(m.pattern, container.value.name).None?
    requires container.Some? && m.ImagePattern? ==> regex(m.pattern, container.value.image).None?
    ensures !Fires(m, container, project, docker, regex)
  {
  }

  /** The configured actions offered for the target, in configuration order. */
  function Available(actions: seq<ContextMenuAction>, container: Option<Container>, project: Option<ComposeProject>,
                     docker: Docker, regex: RegexMatch): (r: seq<ContextMenuAction>)
    ensures |r| <= |actions|
    decreases |actions|
  {
    if actions == [] then []
    else
      (if MatchesAction(actions[0], container, project, docker, regex) then [actions[0]] else []) +
      Available(actions[1..], container, project, docker, regex)
  }

  /** The offered actions are exactly the configured ones that match. */
  lemma {:induction false} AvailableSpec(actions: seq<ContextMenuAction>, container: Option<Container>,
                                         project: Option<ComposeProject>, docker: Docker, regex: RegexMatch)
    ensures forall a :: a in Available(actions, container, project, docker, regex) <==>
      a in actions && MatchesAction(a, container, project, docker, regex)
    decreases |actions|
  {
    if actions != [] {
      AvailableSpec(actions[1..], container, project, docker, regex);
      assert actions == [actions[0]] + actions[1..];
    }
  }

  /** The command of an action with the target's details substituted:
      name, image and address for a container; project, directory, compose
      file and first service for a project. */
  function Substituted(command: String, container: Option<Container>, project: Option<ComposeProject>): (r: String)
    ensures container.None? && project.None? ==> r == command
  {
    var afterContainer := if container.Some? then ContainerStage(command, container.value) else command;
    if project.Some? then ProjectStage(afterContainer, project.value) else afterContainer
  }

  /** The container placeholders, replaced in order. */
  function ContainerStage(s: String, c: Container): String {
    Replace(Replace(Replace(s, "{name}", c.name), "{image}", c.image), "{ip}", c.ipAddress)
  }

  /** The project placeholders, replaced in order; `{service}` only when
      the project lists a container. */
  function ProjectStage(s: String, p: ComposeProject): String {
    var withFile := Replace(Replace(Replace(s, "{project}", p.projectName), "{dir}", p.workingDir),
                            "{compose_file}", p.workingDir + "/docker-compose.yml");
    if p.containers != [] then Replace(withFile, "{service}", p.containers[0]) else withFile
  }

  /** A string without an opening brace holds no placeholder. */
  lemma NoBraceNoPlaceholder(s: String, pat: String)
    requires '{' !in s && |pat| > 0 && pat[0] == '{'
    ensures !Contains(s, pat)
  {
    forall i | 0 <= i <= |s| ensures !IsPrefix(pat, s[i..]) {
      if i < |s| {
        assert s[i..][0] == s[i];
      }
    }
  }

  /** Strings that differ at a position inside the pattern do not start
      with it. */
  lemma NotPrefixAt(pat: String, s: String, k: nat)
    requires k < |pat| && k < |s| && pat[k] != s[k]
    ensures !IsPrefix(pat, s)
  {
    if |pat| <= |s| {
      assert s[..|pat|][k] == s[k];
    }
  }

  /** A placeholder is not found in another placeholder whose only brace
      is its first character and which does not start with it. */
  lemma OtherPlaceholderAbsent(s: String, pat: String)
    requires |s| > 1 && |pat| > 1 && s[0] == '{' && pat[0] == '{' && !IsPrefix(pat, s)
    requires '{' !in s[1..]
    ensures !Contains(s, pat)
  {
    NoBraceNoPlaceholder(s[1..], pat);
    forall i | 0 <= i <= |s| ensures !IsPrefix(pat, s[i..]) {
      if i == 0 {
        assert s[0..] == s;
      } else {
        assert s[i..] == s[1..][i - 1..];
      }
    }
  }

  /** Without a target the command is used as configured. */
  lemma NoTargetKeepsCommand(command: String)
    ensures Substituted(command, None, None) == command
  {
  }

  /** The container placeholders leave a brace-free string alone. */
  lemma ContainerStageKeeps(s: String, c: Container)
    requires '{' !in s
    ensures Replace(Replace(Replace(s, "{name}", c.name), "{image}", c.image), "{ip}", c.ipAddress) == s
    ensures ContainerStage(s, c) == s
  {
    NoBraceNoPlaceholder(s, "{name}");
    NoBraceNoPlaceholder(s, "{image}");
    NoBraceNoPlaceholder(s, "{ip}");
    ReplaceAbsent(s, "{name}", c.name);
    ReplaceAbsent(s, "{image}", c.image);
    ReplaceAbsent(s, "{ip}", c.ipAddress);
  }

  /** The project placeholders leave a brace-free string alone. */
  lemma ProjectStageKeeps(s: String, p: ComposeProject)
    requires '{' !in s
    ensures Replace(Replace(Replace(s, "{project}", p.projectName), "{dir}", p.workingDir),
                    "{compose_file}", p.workingDir + "/docker-compose.yml") == s
    ensures p.containers != [] ==> Replace(s, "{service}", p.containers[0]) == s
    ensures ProjectStage(s, p) == s
  {
    NoBraceNoPlaceholder(s, "{project}");
    NoBraceNoPlaceholder(s, "{dir}");
    NoBraceNoPlaceholder(s, "{compose_file}");
    ReplaceAbsent(s, "{project}", p.projectName);
    ReplaceAbsent(s, "{dir}", p.workingDir);
    ReplaceAbsent(s, "{compose_file}", p.workingDir + "/docker-compose.yml");
    if p.containers != [] {
      NoBraceNoPlaceholder(s, "{service}");
      ReplaceAbsent(s, "{service}", p.containers[0]);
    }
  }

  /** A command without placeholders is used as configured, whatever the target. */
  lemma PlainCommandKept(command: String, container: Option<Container>, project: Option<ComposeProject>)
    requires '{' !in command
    ensures Substituted(command, container, project) == command
  {
    if container.Some? {
      ContainerStageKeeps(command, container.value);
    }
    if project.Some? {
      ProjectStageKeeps(command, project.value);
    }
  }

  /** The compose file path has an opening brace only if its directory
      has one. */
  lemma NoBraceInComposeFile(dir: String)
    requires '{' !in dir
    ensures '{' !in dir + "/docker-compose.yml"
  {
    var suffix: String := "/docker-compose.yml";
    assert '{' !in suffix;
    var file := dir + suffix;
    forall k | 0 <= k < |file| ensures file[k] != '{' {
      if k < |dir| {
        assert file[k] == dir[k];
      } else {
        assert file[k] == suffix[k - |dir|];
      }
    }
  }

  /** `{compose_file}` alone names the compose file in the project's
      directory. */
  lemma ComposeFilePlaceholder(p: ComposeProject)
    requires '{' !in p.workingDir
    ensures Substituted("{compose_file}", None, Some(p)) == p.workingDir + "/docker-compose.yml"
  {
    var s: String := "{compose_file}";
    var file := p.workingDir + "/docker-compose.yml";
    assert '{' !in s[1..];
    NotPrefixAt("{project}", s, 1);
    OtherPlaceholderAbsent(s, "{project}");
    NotPrefixAt("{dir}", s, 1);
    OtherPlaceholderAbsent(s, "{dir}");
    ReplaceAbsent(s, "{project}", p.projectName);
    ReplaceAbsent(s, "{dir}", p.workingDir);
    ReplaceWhole(s, file);
    var withFile := Replace(Replace(Replace(s, "{project}", p.projectName), "{dir}", p.workingDir), "{compose_file}", file);
    assert withFile == file;
    if p.containers != [] {
      NoBraceInComposeFile(p.workingDir);
      NoBraceNoPlaceholder(file, "{service}");
      ReplaceAbsent(file, "{service}", p.containers[0]);
    }
  }

  /** `{name}` alone becomes the container's name when the name holds no
      placeholder itself. */
  lemma NamePlaceholder(c: Container)
    requires '{' !in c.name
    ensures Substituted("{name}", Some(c), None) == c.name
  {
    ReplaceWhole("{name}", c.name);
    NoBraceNoPlaceholder(c.name, "{image}");
    NoBraceNoPlaceholder(c.name, "{ip}");
    ReplaceAbsent(c.name, "{image}", c.image);
    ReplaceAbsent(c.name, "{ip}", c.ipAddress);
  }

  /** `{image}` alone becomes the container's image when the image holds
      no placeholder itself. */
  lemma ImagePlaceholder(c: Container)
    requires '{' !in c.image
    ensures Substituted("{image}", Some(c), None) == c.image
  {
    var s: String := "{image}";
    assert '{' !in s[1..];
    NotPrefixAt("{name}", s, 1);
    OtherPlaceholderAbsent(s, "{name}");
    ReplaceAbsent(s, "{name}", c.name);
    ReplaceWhole(s, c.image);
    NoBraceNoPlaceholder(c.image, "{ip}");
    ReplaceAbsent(c.image, "{ip}", c.ipAddress);
  }

  /** `{ip}` alone becomes the container's address, the last container
      placeholder replaced. */
  lemma IpPlaceholder(c: Container)
    ensures Substituted("{ip}", Some(c), None) == c.ipAddress
  {
    var s: String := "{ip}";
    assert '{' !in s[1..];
    NotPrefixAt("{name}", s, 1);
    OtherPlaceholderAbsent(s, "{name}");
    NotPrefixAt("{image}", s, 2);
    OtherPlaceholderAbsent(s, "{image}");
    ReplaceAbsent(s, "{name}", c.name);
    ReplaceAbsent(s, "{image}", c.image);
    ReplaceWhole(s, c.ipAddress);
  }

  /** `{project}` alone becomes the project's name when the name holds no
      placeholder itself. */
  lemma ProjectPlaceholder(p: ComposeProject)
    requires '{' !in p.projectName
    ensures Substituted("{project}", None, Some(p)) == p.projectName
  {
    ReplaceWhole("{project}", p.projectName);
    ProjectStageKeepsAfterProject(p.projectName, p);
  }

  /** `{dir}` alone becomes the project's working directory when the
      directory holds no placeholder itself. */
  lemma DirPlaceholder(p: ComposeProject)
    requires '{' !in p.workingDir
    ensures Substituted("{dir}", None, Some(p)) == p.workingDir
  {
    var s: String := "{dir}";
    assert '{' !in s[1..];
    NotPrefixAt("{project}", s, 1);
    OtherPlaceholderAbsent(s, "{project}");
    ReplaceAbsent(s, "{project}", p.projectName);
    ReplaceWhole(s, p.workingDir);
    NoBraceNoPlaceholder(p.workingDir, "{compose_file}");
    ReplaceAbsent(p.workingDir, "{compose_file}", p.workingDir + "/docker-compose.yml");
    if p.containers != [] {
      NoBraceNoPlaceholder(p.workingDir, "{service}");
      ReplaceAbsent(p.workingDir, "{service}", p.containers[0]);
    }
  }

  /** `{service}` alone becomes the project's first container. */
  lemma ServicePlaceholder(p: ComposeProject)
    requires p.containers != []
    ensures Substituted("{service}", None, Some(p)) == p.containers[0]
  {
    var s: String := "{service}";
    assert '{' !in s[1..];
    NotPrefixAt("{project}", s, 1);
    OtherPlaceholderAbsent(s, "{project}");
    NotPrefixAt("{dir}", s, 1);
    OtherPlaceholderAbsent(s, "{dir}");
    NotPrefixAt("{compose_file}", s, 1);
    OtherPlaceholderAbsent(s, "{compose_file}");
    ReplaceAbsent(s, "{project}", p.projectName);
    ReplaceAbsent(s, "{dir}", p.workingDir);
    ReplaceAbsent(s, "{compose_file}", p.workingDir + "/docker-compose.yml");
    ReplaceWhole(s, p.containers[0]);
  }

  /** `{service}` is left as written for a project that lists no container. */
  lemma ServiceKeptWithoutContainers(p: ComposeProject)
    requires p.containers == []
    ensures Substituted("{service}", None, Some(p)) == "{service}"
  {
    var s: String := "{service}";
    assert '{' !in s[1..];
    NotPrefixAt("{project}", s, 1);
    OtherPlaceholderAbsent(s, "{project}");
    NotPrefixAt("{dir}", s, 1);
    OtherPlaceholderAbsent(s, "{dir}");
    NotPrefixAt("{compose_file}", s, 1);
    OtherPlaceholderAbsent(s, "{compose_file}");
    ReplaceAbsent(s, "{project}", p.projectName);
    ReplaceAbsent(s, "{dir}", p.workingDir);
    ReplaceAbsent(s, "{compose_file}", p.workingDir + "/docker-compose.yml");
  }

  /** A brace-free string is unchanged by the project stage after
      `{project}`. */
  lemma ProjectStageKeepsAfterProject(s: String, p: ComposeProject)
    requires '{' !in s
    ensures Replace(Replace(s, "{dir}", p.workingDir), "{compose_file}", p.workingDir + "/docker-compose.yml") == s
    ensures p.containers != [] ==> Replace(s, "{service}", p.containers[0]) == s
  {
    NoBraceNoPlaceholder(s, "{dir}");
    NoBraceNoPlaceholder(s, "{compose_file}");
    ReplaceAbsent(s, "{dir}", p.workingDir);
    ReplaceAbsent(s, "{compose_file}", p.workingDir + "/docker-compose.yml");
    if p.containers != [] {
      NoBraceNoPlaceholder(s, "{service}");
      ReplaceAbsent(s, "{service}", p.containers[0]);
    }
  }

  /** A placeholder other than the project ones passes the project stage
      untouched. */
  lemma ProjectStageSkips(s: String, p: ComposeProject)
    requires |s| > 1 && s[0] == '{' && '{' !in s[1..]
    requires !IsPrefix("{project}", s) && !IsPrefix("{dir}", s)
    requires !IsPrefix("{compose_file}", s) && !IsPrefix("{service}", s)
    ensures ProjectStage(s, p) == s
  {
    OtherPlaceholderAbsent(s, "{project}");
    OtherPlaceholderAbsent(s, "{dir}");
    OtherPlaceholderAbsent(s, "{compose_file}");
    OtherPlaceholderAbsent(s, "{service}");
    ReplaceAbsent(s, "{project}", p.projectName);
    ReplaceAbsent(s, "{dir}", p.workingDir);
    ReplaceAbsent(s, "{compose_file}", p.workingDir + "/docker-compose.yml");
    if p.containers != [] {
      ReplaceAbsent(s, "{service}", p.containers[0]);
    }
  }

  /** With only a project targeted, the container placeholders are left
      as written. */
  lemma ContainerPlaceholdersNeedContainer(p: ComposeProject)
    ensures Substituted("{name}", None, Some(p)) == "{name}"
    ensures Substituted("{image}", None, Some(p)) == "{image}"
    ensures Substituted("{ip}", None, Some(p)) == "{ip}"
  {
    var n: String := "{name}";
    var i: String := "{image}";
    var a: String := "{ip}";
    assert '{' !in n[1..] && '{' !in i[1..] && '{' !in a[1..];
    NotPrefixAt("{project}", n, 1);
    NotPrefixAt("{dir}", n, 1);
    NotPrefixAt("{compose_file}", n, 1);
    NotPrefixAt("{service}", n, 1);
    ProjectStageSkips(n, p);
    NotPrefixAt("{project}", i, 1);
    NotPrefixAt("{dir}", i, 1);
    NotPrefixAt("{compose_file}", i, 1);
    NotPrefixAt("{service}", i, 1);
    ProjectStageSkips(i, p);
    NotPrefixAt("{project}", a, 1);
    NotPrefixAt("{dir}", a, 1);
    NotPrefixAt("{compose_file}", a, 1);
    NotPrefixAt("{service}", a, 1);
    ProjectStageSkips(a, p);
  }

  class ContextMenuState {
    var active: bool
    var selectedIndex: nat
    var actions: seq<ContextMenuAction>
    var targetContainer: Option<Container>
    var targetProject: Option<ComposeProject>

    /** A new menu is closed, empty and has no target. */
    constructor ()
      ensures !active && selectedIndex == 0 && actions == []
      ensures targetContainer.None? && targetProject.None?
    {
      active := false;
      selectedIndex := 0;
      actions := [];
      targetContainer := None;
      targetProject := None;
    }

    /** Opens the menu on a target with the configured actions that apply
        to it, the first one selected. */
    method Activate(container: Option<Container>, project: Option<ComposeProject>,
                    configured: seq<ContextMenuAction>, docker: Docker, regex: RegexMatch)
      modifies this
      ensures active && selectedIndex == 0
      ensures targetContainer == container && targetProject == project
      ensures actions == Available(configured, container, project, docker, regex)
    {
      active := true;
      selectedIndex := 0;
      targetContainer := container;
      targetProject := project;
      actions := Available(configured, container, project, docker, regex);
    }

    /** Closes the menu and forgets its target and actions. */
    method Deactivate()
      modifies this
      ensures !active && selectedIndex == 0 && actions == []
      ensures targetContainer.None? && targetProject.None?
    {
      active := false;
      selectedIndex := 0;
      actions := [];
      targetContainer := None;
      targetProject := None;
    }

    /** Selects the following action, wrapping to the first. */
    method Next()
      modifies this`selectedIndex
      ensures actions == [] ==> selectedIndex == old(selectedIndex)
      ensures actions != [] ==> selectedIndex == (old(selectedIndex) + 1) % |actions| && selectedIndex < |actions|
      ensures actions != [] && old(selectedIndex) < |actions| ==>
        selectedIndex == NextIndex(old(selectedIndex), |actions|)
    {
      if actions != [] {
        selectedIndex := (selectedIndex + 1) % |actions|;
      }
    }

    /** Selects the preceding action, wrapping to the last. */
    method Previous()
      modifies this`selectedIndex
      ensures actions == [] ==> selectedIndex == old(selectedIndex)
      ensures actions != [] ==> selectedIndex == PreviousIndex(old(selectedIndex), |actions|)
      ensures actions != [] && old(selectedIndex) < |actions| ==> selectedIndex < |actions|
    {
      if actions != [] {
        selectedIndex := if selectedIndex == 0 then |actions| - 1 else selectedIndex - 1;
      }
    }

    function SelectedAction(): (r: Option<ContextMenuAction>)
      reads this
      ensures r.Some? <==> selectedIndex < |actions|
      ensures r.Some? ==> r.value == actions[selectedIndex]
    {
      if selectedIndex < |actions| then Some(actions[selectedIndex]) else None
    }

    /** The shell command of the selected action, placeholders filled in
        from the target; nothing when no action is selected. */
    method ExecuteSelectedAction() returns (r: Option<String>)
      ensures SelectedAction().None? ==> r.None?
      ensures SelectedAction().Some? ==>
        r == Some(Substituted(SelectedAction().value.command, targetContainer, targetProject))
    {
      var action := SelectedAction();
      if action.None? {
        return None;
      }
      var command := action.value.command;
      if targetContainer.Some? {
        var container := targetContainer.value;
        command := Replace(command, "{name}", container.name);
        command := Replace(command, "{image}", container.image);
        command := Replace(command, "{ip}", container.ipAddress);
      }
      if targetProject.Some? {
        var project := targetProject.value;
        command := Replace(command, "{project}", project.projectName);
        command := Replace(command, "{dir}", project.workingDir);
        var composeFile := project.workingDir + "/docker-compose.yml";
        command := Replace(command, "{compose_file}", composeFile);
        if project.containers != [] {
          command := Replace(command, "{service}", project.containers[0]);
        }
      }
      return Some(command);
    }
  }

  /** Opening the menu and stepping forward once from the first action
      selects the second, or stays on the only one. */
  method OpenAndStep(configured: seq<ContextMenuAction>, container: Option<Container>, docker: Docker, regex: RegexMatch)
    returns (selected: nat, offered: nat)
    ensures offered == |Available(configured, container, None, docker, regex)|
    ensures offered == 0 ==> selected == 0
    ensures offered == 1 ==> selected == 0
    ensures offered > 1 ==> selected == 1
  {
    var menu := new ContextMenuState();
    menu.Activate(container, None, configured, docker, regex);
    menu.Next();
    selected := menu.selectedIndex;
    offered := |menu.actions|;
  }
}
