/**
 * Grouping of the dashboard's containers into Docker Compose projects.
 *
 * Each container is inspected for its two compose labels (working
 * directory and project name); containers with both labels are grouped
 * by working directory, and the groups are listed sorted by project name.
 * The inspect invocation goes through the docker oracle of `Process`.
 *
 * The original collects the groups in a hash map, so the order of groups
 * that share a project name is not determined by the program; this model
 * fixes one order (first appearance, then a stable sort).
 */
module ComposeView {

  import opened Wrappers
  import opened Text
  import opened Process
  import opened Containers

  datatype ComposeProject = ComposeProject(projectName: String, workingDir: String, containers: seq<String>)
  {
    function ContainerCount(): (r: nat)
      ensures r == |containers|
      ensures r == 0 <==> containers == []
    {
      |containers|
    }
  }

  /** The Go template that prints `working_dir|project`. */
  const LabelsFormat: String :=
    "{{index .Config.Labels \"com.docker.compose.project.working_dir\"}}|{{index .Config.Labels \"com.docker.compose.project\"}}"

  function InspectArgs(name: String): (r: seq<String>)
    ensures |r| == 4 && r[0] == "inspect" && r[3] == name
  {
    ["inspect", "--format", LabelsFormat, name]
  }

  /**
   * The (working directory, project name) pair an inspect run reports:
   * only a successful run whose trimmed output splits at `|` into exactly
   * two non-empty pieces yields one.
   */
  function LabelsOf(run: DockerRun): (r: Option<(String, String)>)
    ensures r.Some? ==> run.Exited? && run.success
    ensures r.Some? ==> r.value.0 != [] && r.value.1 != []
    ensures r.Some? ==> '|' !in r.value.0 && '|' !in r.value.1
  {
    if run.Exited? && run.success then
      var parts := Split(Trim(run.stdout), {'|'});
      SplitPiecesHaveNoSeparator(Trim(run.stdout), {'|'});
      assert parts[0] in parts && parts[|parts| - 1] in parts;
      if |parts| == 2 && parts[0] != [] && parts[1] != [] then Some((parts[0], parts[1])) else None
    else None
  }

  /** A run printing `dir|project` (no stray bars, no surrounding blanks)
      is read back as exactly that pair. */
  lemma LabelsOfExact(dir: String, project: String, stderr: String)
    requires dir != [] && project != [] && '|' !in dir && '|' !in project
    requires NoOuterWhitespace(dir + "|" + project)
    ensures LabelsOf(Exited(true, dir + "|" + project, stderr)) == Some((dir, project))
  {
    var out := dir + "|" + project;
    TrimIdentity(out);
    assert out == dir + ['|'] + project;
    SplitAtSeparator(dir, '|', project, {'|'});
    SplitNoSeparator(project, {'|'});
  }

  /** The labels docker reports for container `c`. */
  function DirOf(c: Container, docker: Docker): Option<(String, String)> {
    LabelsOf(docker(InspectArgs(c.name)))
  }

  predicate Labelled(c: Container, docker: Docker, dir: String) {
    DirOf(c, docker).Some? && DirOf(c, docker).value.0 == dir
  }

  /**
   * The hash map the grouping loop builds over `cs`, paired with the order
   * in which its keys were first inserted.
   */
  function Group(cs: seq<Container>, docker: Docker): (r: (seq<String>, map<String, ComposeProject>))
    decreases |cs|
  {
    if cs == [] then ([], map[])
    else
      var (order, projects) := Group(cs[..|cs| - 1], docker);
      var c := cs[|cs| - 1];
      match DirOf(c, docker)
      case None => (order, projects)
      case Some((dir, name)) =>
        if dir in projects then
          (order, projects[dir := projects[dir].(containers := projects[dir].containers + [c.name])])
        else
          (order + [dir], projects[dir := ComposeProject(name, dir, [c.name])])
  }

  predicate NoRepeats(s: seq<String>) {
    forall i, j :: 0 <= i < j < |s| ==> s[i] != s[j]
  }

  /** The insertion order lists every key of the map, each once. */
  lemma {:induction false} GroupKeys(cs: seq<Container>, docker: Docker)
    ensures forall d :: d in Group(cs, docker).0 <==> d in Group(cs, docker).1
    ensures NoRepeats(Group(cs, docker).0)
    decreases |cs|
  {
    if cs != [] {
      var init := cs[..|cs| - 1];
      GroupKeys(init, docker);
      var (order, projects) := Group(init, docker);
      match DirOf(cs[|cs| - 1], docker)
      case None =>
        assert Group(cs, docker) == Group(init, docker);
      case Some((dir, _)) =>
        if dir in projects {
          assert Group(cs, docker).0 == order;
          assert Group(cs, docker).1.Keys == projects.Keys;
        } else {
          var order' := order + [dir];
          assert Group(cs, docker).0 == order';
          assert Group(cs, docker).1.Keys == projects.Keys + {dir};
          forall i, j | 0 <= i < j < |order'|
            ensures order'[i] != order'[j]
          {
            assert order'[i] == order[i];
            if j < |order| {
              assert order'[j] == order[j];
            } else {
              assert order[i] in order;
            }
          }
        }
    }
  }

  /** The names of the containers of `cs` labelled with `dir`, in order. */
  function Members(cs: seq<Container>, docker: Docker, dir: String): (r: seq<String>)
    ensures |r| <= |cs|
    decreases |cs|
  {
    if cs == [] then []
    else
      var c := cs[|cs| - 1];
      Members(cs[..|cs| - 1], docker, dir) + (if Labelled(c, docker, dir) then [c.name] else [])
  }

  /** What one more container does to the group of `dir`: it creates the
      group, or appends its name to it, exactly when it is labelled with
      `dir`. */
  lemma {:induction false} GroupStep(cs: seq<Container>, docker: Docker, dir: String)
    requires cs != []
    ensures var g, g' := Group(cs[..|cs| - 1], docker).1, Group(cs, docker).1;
      var c := cs[|cs| - 1];
      && (dir in g' <==> dir in g || Labelled(c, docker, dir))
      && (dir in g ==> g'[dir] == g[dir].(containers := g[dir].containers + (if Labelled(c, docker, dir) then [c.name] else [])))
      && (dir !in g && Labelled(c, docker, dir) ==> g'[dir] == ComposeProject(DirOf(c, docker).value.1, dir, [c.name]))
  {
    var g := Group(cs[..|cs| - 1], docker).1;
    if dir in g {
      // A container not labelled with `dir` leaves its group as it is.
      assert g[dir].containers + [] == g[dir].containers;
    }
  }

  /** A container labelled with `dir` gives `dir` a group. */
  lemma {:induction false} GroupKeyFromLabelled(cs: seq<Container>, docker: Docker, dir: String, i: nat)
    requires i < |cs| && Labelled(cs[i], docker, dir)
    ensures dir in Group(cs, docker).1
    decreases |cs|
  {
    if i < |cs| - 1 {
      var init := cs[..|cs| - 1];
      assert init[i] == cs[i];
      GroupKeyFromLabelled(init, docker, dir, i);
    }
  }

  /** A group exists only for a directory some container is labelled with;
      `i` is the first such container. */
  lemma {:induction false} LabelledFromGroupKey(cs: seq<Container>, docker: Docker, dir: String) returns (i: nat)
    requires dir in Group(cs, docker).1
    ensures i < |cs| && Labelled(cs[i], docker, dir)
    ensures forall j :: 0 <= j < i ==> !Labelled(cs[j], docker, dir)
    ensures DirOf(cs[i], docker).value.1 == Group(cs, docker).1[dir].projectName
    decreases |cs|
  {
    var init := cs[..|cs| - 1];
    GroupStep(cs, docker, dir);
    if dir in Group(init, docker).1 {
      i := LabelledFromGroupKey(init, docker, dir);
      assert cs[i] == init[i];
      assert forall j :: 0 <= j < i ==> cs[j] == init[j];
      assert Group(cs, docker).1[dir].projectName == Group(init, docker).1[dir].projectName;
    } else {
      i := |cs| - 1;
      NoGroupNoLabelled(init, docker, dir);
      assert forall j :: 0 <= j < i ==> cs[j] == init[j];
      assert Group(cs, docker).1[dir] == ComposeProject(DirOf(cs[i], docker).value.1, dir, [cs[i].name]);
    }
  }

  /** Without a group for `dir`, no container is labelled with it. */
  lemma {:induction false} NoGroupNoLabelled(cs: seq<Container>, docker: Docker, dir: String)
    requires dir !in Group(cs, docker).1
    ensures forall j :: 0 <= j < |cs| ==> !Labelled(cs[j], docker, dir)
  {
    forall j | 0 <= j < |cs|
      ensures !Labelled(cs[j], docker, dir)
    {
      if Labelled(cs[j], docker, dir) {
        GroupKeyFromLabelled(cs, docker, dir, j);
      }
    }
  }

  /** Every group is keyed by its own working directory and lists exactly
      the containers labelled with it, in the order of `cs`. */
  lemma {:induction false} GroupMembers(cs: seq<Container>, docker: Docker, dir: String)
    requires dir in Group(cs, docker).1
    ensures Group(cs, docker).1[dir].workingDir == dir
    ensures Group(cs, docker).1[dir].containers == Members(cs, docker, dir)
    decreases |cs|
  {
    var init := cs[..|cs| - 1];
    var c := cs[|cs| - 1];
    GroupStep(cs, docker, dir);
    if dir in Group(init, docker).1 {
      GroupMembers(init, docker, dir);
    } else {
      NoGroupNoLabelled(init, docker, dir);
      MembersEmpty(init, docker, dir);
    }
  }

  /** No container labelled with `dir`: no members. */
  lemma {:induction false} MembersEmpty(cs: seq<Container>, docker: Docker, dir: String)
    requires forall i :: 0 <= i < |cs| ==> !Labelled(cs[i], docker, dir)
    ensures Members(cs, docker, dir) == []
    decreases |cs|
  {
    if cs != [] {
      MembersEmpty(cs[..|cs| - 1], docker, dir);
    }
  }

  // ----- sorting by project name -----

  predicate SortedByName(ps: seq<ComposeProject>) {
    forall i :: 0 < i < |ps| ==> LexLe(ps[i - 1].projectName, ps[i].projectName)
  }

  /** `p` placed before the first project whose name is not below it. */
  function InsertByName(p: ComposeProject, ps: seq<ComposeProject>): (r: seq<ComposeProject>)
    ensures multiset(r) == multiset(ps) + multiset{p}
    ensures |r| == |ps| + 1
    ensures r[0] == p || (ps != [] && r[0] == ps[0])
  {
    if ps == [] || LexLe(p.projectName, ps[0].projectName) then
      [p] + ps
    else
      var rest := InsertByName(p, ps[1..]);
      assert ps == [ps[0]] + ps[1..];
      [ps[0]] + rest
  }

  /** Inserting into a sorted list keeps it sorted. */
  lemma {:induction false} InsertKeepsSorted(p: ComposeProject, ps: seq<ComposeProject>)
    requires SortedByName(ps)
    ensures SortedByName(InsertByName(p, ps))
    decreases |ps|
  {
    if ps != [] && !LexLe(p.projectName, ps[0].projectName) {
      LexLeTotal(p.projectName, ps[0].projectName);
      var tail := ps[1..];
      assert SortedByName(tail) by {
        forall i | 0 < i < |tail| ensures LexLe(tail[i - 1].projectName, tail[i].projectName) {
          assert tail[i - 1] == ps[i] && tail[i] == ps[i + 1];
        }
      }
      InsertKeepsSorted(p, tail);
      var rest := InsertByName(p, tail);
      var r := [ps[0]] + rest;
      assert r == InsertByName(p, ps);
      forall i | 0 < i < |r| ensures LexLe(r[i - 1].projectName, r[i].projectName) {
        if i == 1 {
          // `rest` starts with `p` or with the old second element.
          assert r[1] == rest[0];
        } else {
          assert r[i - 1] == rest[i - 2] && r[i] == rest[i - 1];
        }
      }
    }
  }

  /** `sort_by` on the project name, as a stable insertion sort. */
  function SortByName(ps: seq<ComposeProject>): (r: seq<ComposeProject>)
    ensures SortedByName(r)
    ensures multiset(r) == multiset(ps)
    ensures |r| == |ps|
  {
    if ps == [] then []
    else
      assert ps == [ps[0]] + ps[1..];
      InsertKeepsSorted(ps[0], SortByName(ps[1..]));
      InsertByName(ps[0], SortByName(ps[1..]))
  }

  /** The groups in key-insertion order. */
  function GroupList(cs: seq<Container>, docker: Docker): (r: seq<ComposeProject>)
    ensures |r| == |Group(cs, docker).0|
    ensures forall k :: 0 <= k < |r| ==>
      Group(cs, docker).0[k] in Group(cs, docker).1 && r[k] == Group(cs, docker).1[Group(cs, docker).0[k]]
  {
    GroupKeys(cs, docker);
    var (order, projects) := Group(cs, docker);
    seq(|order|, k requires 0 <= k < |order| => projects[order[k]])
  }

  /** The result of `group_containers_by_project`. */
  function Projects(cs: seq<Container>, docker: Docker): (r: seq<ComposeProject>)
    ensures SortedByName(r)
    ensures multiset(r) == multiset(GroupList(cs, docker))
  {
    SortByName(GroupList(cs, docker))
  }

  /** The working directories the containers of `cs` are labelled with. */
  function Dirs(cs: seq<Container>, docker: Docker): set<String>
    decreases |cs|
  {
    if cs == [] then {}
    else
      Dirs(cs[..|cs| - 1], docker) +
      match DirOf(cs[|cs| - 1], docker)
      case Some((dir, _)) => {dir}
      case None => {}
  }

  /** How many projects the grouping yields: one per labelled working
      directory. */
  function ProjectCount(cs: seq<Container>, docker: Docker): nat {
    |Dirs(cs, docker)|
  }

  /** The directories are exactly the grouping's keys. */
  lemma {:induction false} DirsAreGroupKeys(cs: seq<Container>, docker: Docker)
    ensures forall d :: d in Dirs(cs, docker) <==> d in Group(cs, docker).0
    decreases |cs|
  {
    if cs != [] {
      DirsAreGroupKeys(cs[..|cs| - 1], docker);
      GroupKeys(cs[..|cs| - 1], docker);
    }
  }

  /** A sequence without repetitions has as many elements as its set. */
  lemma {:induction false} DistinctCardinality(s: seq<String>)
    requires NoRepeats(s)
    ensures |set x | x in s| == |s|
    decreases |s|
  {
    if s != [] {
      var init := s[..|s| - 1];
      DistinctCardinality(init);
      assert (set x | x in s) == (set x | x in init) + {s[|s| - 1]};
      assert s[|s| - 1] !in init;
    }
  }

  /** The count is the length of the project list. */
  lemma ProjectCountIsLength(cs: seq<Container>, docker: Docker)
    ensures ProjectCount(cs, docker) == |Projects(cs, docker)|
  {
    var order := Group(cs, docker).0;
    GroupKeys(cs, docker);
    DirsAreGroupKeys(cs, docker);
    DistinctCardinality(order);
    assert Dirs(cs, docker) == set x | x in order;
  }

  /** Every project lists exactly the containers labelled with its
      working directory, and no two projects share a working directory. */
  lemma ProjectsAreGroups(cs: seq<Container>, docker: Docker)
    ensures forall p :: p in Projects(cs, docker) ==>
      p.containers == Members(cs, docker, p.workingDir) && p.containers != []
    ensures forall i, j :: 0 <= i < j < |Projects(cs, docker)| ==>
      Projects(cs, docker)[i].workingDir != Projects(cs, docker)[j].workingDir
  {
    var (order, projects) := Group(cs, docker);
    var list := GroupList(cs, docker);
    var r := Projects(cs, docker);
    forall p | p in r
      ensures p.containers == Members(cs, docker, p.workingDir) && p.containers != []
    {
      assert p in multiset(list);
      var k :| 0 <= k < |list| && list[k] == p;
      GroupMembers(cs, docker, order[k]);
      var i := LabelledFromGroupKey(cs, docker, order[k]);
      MembersHasLabelled(cs, docker, order[k], i);
    }
    forall i, j | 0 <= i < j < |r|
      ensures r[i].workingDir != r[j].workingDir
    {
      DistinctDirsKept(cs, docker, r, i, j);
    }
  }

  /** How many containers of `cs` are labelled with `dir`. */
  function LabelledCount(cs: seq<Container>, docker: Docker, dir: String): nat
    decreases |cs|
  {
    if cs == [] then 0
    else LabelledCount(cs[..|cs| - 1], docker, dir) + (if Labelled(cs[|cs| - 1], docker, dir) then 1 else 0)
  }

  /** The members of a directory are as many as the containers labelled
      with it. */
  lemma {:induction false} MembersCount(cs: seq<Container>, docker: Docker, dir: String)
    ensures |Members(cs, docker, dir)| == LabelledCount(cs, docker, dir)
    decreases |cs|
  {
    if cs != [] {
      MembersCount(cs[..|cs| - 1], docker, dir);
    }
  }

  /** Each project counts exactly the containers labelled with its
      working directory, and so at least one. */
  lemma ProjectContainerCount(cs: seq<Container>, docker: Docker)
    ensures forall p :: p in Projects(cs, docker) ==>
      p.ContainerCount() == LabelledCount(cs, docker, p.workingDir) && p.ContainerCount() > 0
  {
    ProjectsAreGroups(cs, docker);
    forall p | p in Projects(cs, docker)
      ensures p.ContainerCount() == LabelledCount(cs, docker, p.workingDir)
    {
      MembersCount(cs, docker, p.workingDir);
    }
  }

  /** Every container with both labels is listed, under the project of
      its working directory. */
  lemma LabelledContainerListed(cs: seq<Container>, docker: Docker, i: nat)
    requires i < |cs| && DirOf(cs[i], docker).Some?
    ensures exists p :: (p in Projects(cs, docker) &&
      p.workingDir == DirOf(cs[i], docker).value.0 && cs[i].name in p.containers)
  {
    var dir := DirOf(cs[i], docker).value.0;
    var (order, projects) := Group(cs, docker);
    GroupKeyFromLabelled(cs, docker, dir, i);
    GroupKeys(cs, docker);
    var k :| 0 <= k < |order| && order[k] == dir;
    var p := GroupList(cs, docker)[k];
    GroupMembers(cs, docker, dir);
    MembersHasLabelled(cs, docker, dir, i);
    assert p in multiset(GroupList(cs, docker));
    assert p in multiset(Projects(cs, docker));
  }

  /** A container labelled with `dir` is among the members for `dir`. */
  lemma {:induction false} MembersHasLabelled(cs: seq<Container>, docker: Docker, dir: String, i: nat)
    requires i < |cs| && Labelled(cs[i], docker, dir)
    ensures cs[i].name in Members(cs, docker, dir)
    decreases |cs|
  {
    if i < |cs| - 1 {
      var init := cs[..|cs| - 1];
      assert init[i] == cs[i];
      MembersHasLabelled(init, docker, dir, i);
    }
  }

  predicate DistinctDirs(ps: seq<ComposeProject>) {
    forall x, y :: 0 <= x < y < |ps| ==> ps[x].workingDir != ps[y].workingDir
  }

  /** The insertion-order list has one group per directory. */
  lemma GroupListDistinct(cs: seq<Container>, docker: Docker)
    ensures DistinctDirs(GroupList(cs, docker))
  {
    var order := Group(cs, docker).0;
    GroupKeys(cs, docker);
    forall k | 0 <= k < |order|
      ensures GroupList(cs, docker)[k].workingDir == order[k]
    {
      GroupMembers(cs, docker, order[k]);
    }
  }

  /** Two positions of the sorted list hold groups of different
      directories: the sort permutes groups with distinct keys. */
  lemma DistinctDirsKept(cs: seq<Container>, docker: Docker, r: seq<ComposeProject>, i: nat, j: nat)
    requires r == Projects(cs, docker) && i < j < |r|
    ensures r[i].workingDir != r[j].workingDir
  {
    GroupListDistinct(cs, docker);
    PermutationKeepsDistinctDirs(GroupList(cs, docker), r, i, j);
  }

  lemma PermutationKeepsDistinctDirs(list: seq<ComposeProject>, r: seq<ComposeProject>, i: nat, j: nat)
    requires multiset(r) == multiset(list) && DistinctDirs(list) && i < j < |r|
    ensures r[i].workingDir != r[j].workingDir
  {
    assert r[i] in multiset(list) && r[j] in multiset(list);
    var a :| 0 <= a < |list| && list[a] == r[i];
    var b :| 0 <= b < |list| && list[b] == r[j];
    if a == b {
      assert r == r[..i] + [r[i]] + r[i + 1..j] + [r[j]] + r[j + 1..];
      assert multiset(r)[r[i]] >= 2;
      OccursOnce(list, a);
    }
  }

  /** A group appears once in the insertion-order list. */
  lemma OccursOnce(list: seq<ComposeProject>, a: nat)
    requires a < |list| && DistinctDirs(list)
    ensures multiset(list)[list[a]] == 1
  {
    assert list == list[..a] + [list[a]] + list[a + 1..];
    NotIn(list[..a], list[a]);
    NotIn(list[a + 1..], list[a]);
  }

  lemma NotIn(s: seq<ComposeProject>, p: ComposeProject)
    requires forall x :: 0 <= x < |s| ==> s[x].workingDir != p.workingDir
    ensures multiset(s)[p] == 0
  {
  }

  /**
   * The grouping loop: inspect each container, add it to the group of its
   * working directory (creating the group, with this container's project
   * name, when it is the first one), then sort the groups by name.
   */
  method GroupContainersByProject(containers: seq<Container>, docker: Docker) returns (r: seq<ComposeProject>)
    ensures r == Projects(containers, docker)
  {
    var order: seq<String> := [];
    var projects: map<String, ComposeProject> := map[];
    for i := 0 to |containers|
      invariant (order, projects) == Group(containers[..i], docker)
    {
      var container := containers[i];
      assert containers[..i + 1][..i] == containers[..i];
      var output := docker(InspectArgs(container.name));
      if output.Exited? && output.success {
        var parts := Split(Trim(output.stdout), {'|'});
        if |parts| == 2 {
          var workingDir := parts[0];
          var projectName := parts[1];
          if workingDir != [] && projectName != [] {
            if workingDir in projects {
              var p := projects[workingDir];
              projects := projects[workingDir := p.(containers := p.containers + [container.name])];
            } else {
              order := order + [workingDir];
              projects := projects[workingDir := ComposeProject(projectName, workingDir, [container.name])];
            }
          }
        }
      }
    }
    assert containers[..|containers|] == containers;
    GroupKeys(containers, docker);
    var list := seq(|order|, k requires 0 <= k < |order| => projects[order[k]]);
    r := SortByName(list);
  }
}
