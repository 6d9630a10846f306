/**
 * Log collection of the older `dprs` crate: a watcher per container id
 * keeps every line it has seen (no bound), seeded with the container's
 * last 100 lines; the manager keeps the watchers and the join handles of
 * their follower threads side by side.
 *
 * The follower thread is modelled by the step method `ReaderStep`; the
 * `docker` oracle answers the discovery and backlog commands.
 */
module LegacyLogWatcher {

  import opened Wrappers
  import opened Text
  import opened Process

  /** Stands for the join handle of the follower thread of one container. */
  datatype JoinHandle = JoinHandle(containerId: String)

  const DiscoveryArgs: seq<String> := ["ps", "--format", "{{.ID}}|{{.Names}}"]

  function BacklogArgs(containerId: String): (r: seq<String>)
    ensures |r| == 4 && r[0] == "logs" && r[3] == containerId
  {
    ["logs", "--tail", "100", containerId]
  }

  function FollowArgs(containerId: String): (r: seq<String>)
    ensures |r| == 5 && r[0] == "logs" && r[4] == containerId
  {
    ["logs", "--follow", "--tail", "0", containerId]
  }

  /** The lines the backlog command contributes: every stdout line of a
      process that ran, whatever its exit status; none when it did not run. */
  function Backlog(run: DockerRun): (r: seq<String>)
    ensures run.SpawnFailed? ==> r == []
    ensures run.Exited? ==> r == Lines(run.stdout)
  {
    match run
    case Exited(_, out, _) => Lines(out)
    case SpawnFailed(_) => []
  }

  class DockerLogWatcher {
    const containerId: String
    const containerName: String
    var logLines: seq<String>
    var running: bool

    constructor (containerId: String, containerName: String)
      ensures this.containerId == containerId && this.containerName == containerName
      ensures logLines == [] && running
    {
      this.containerId := containerId;
      this.containerName := containerName;
      logLines := [];
      running := true;
    }

    /** Loads the backlog, then hands back the follower thread's handle. */
    method StartWatching(docker: Docker) returns (h: JoinHandle)
      modifies this`logLines
      ensures h == JoinHandle(containerId)
      ensures logLines == old(logLines) + Backlog(docker(BacklogArgs(containerId)))
    {
      LoadExistingLogs(docker);
      h := JoinHandle(containerId);
    }

    /** Appends the stdout lines of `docker logs --tail 100 <id>`. */
    method LoadExistingLogs(docker: Docker)
      modifies this`logLines
      ensures logLines == old(logLines) + Backlog(docker(BacklogArgs(containerId)))
    {
      var run := docker(BacklogArgs(containerId));
      if run.SpawnFailed? {
        return;
      }
      var lines := Lines(run.stdout);
      var i := 0;
      while i < |lines|
        invariant 0 <= i <= |lines|
        invariant logLines == old(logLines) + lines[..i]
      {
        logLines := logLines + [lines[i]];
        i := i + 1;
        assert lines[..i] == lines[..i - 1] + [lines[i - 1]];
      }
      assert lines[..i] == lines;
    }

    /**
     * One iteration of the follower thread. An unreadable line (`None`) is
     * skipped without consulting the flag; a readable one ends the thread
     * when the flag is down and is appended otherwise.
     */
    method ReaderStep(line: Option<String>) returns (goOn: bool)
      modifies this`logLines
      ensures line.None? ==> goOn && logLines == old(logLines)
      ensures line.Some? ==> goOn == running
      ensures line.Some? && running ==> logLines == old(logLines) + [line.value]
      ensures line.Some? && !running ==> logLines == old(logLines)
    {
      if line.None? {
        return true;
      }
      if !running {
        return false;
      }
      logLines := logLines + [line.value];
      goOn := true;
    }

    method StopWatching()
      modifies this`running
      ensures !running
    {
      running := false;
    }

    function GetLogs(): (r: seq<String>)
      reads this
      ensures r == logLines
    {
      logLines
    }

    function ContainerName(): (r: String)
      ensures r == containerName
    {
      containerName
    }

    function ContainerId(): (r: String)
      ensures r == containerId
    {
      containerId
    }
  }

  /** A discovery line `<id>|<name>`: exactly two `|`-separated pieces. */
  function ParseEntry(line: String): (r: Option<(String, String)>)
    ensures r.Some? ==> line == r.value.0 + "|" + r.value.1 && '|' !in r.value.0 && '|' !in r.value.1
  {
    var parts := Split(line, {'|'});
    SplitPiecesHaveNoSeparator(line, {'|'});
    SplitJoin(line, '|');
    assert |parts| == 2 ==> parts[0] in parts && parts[1] in parts && Join(parts, "|") == parts[0] + "|" + parts[1];
    if |parts| == 2 then Some((parts[0], parts[1])) else None
  }

  /** A line is accepted exactly when it is `id|name` for an id and a name
      holding no `|`; the two pieces are recovered unchanged. */
  lemma ParseEntryExact(line: String, id: String, name: String)
    ensures ParseEntry(line) == Some((id, name)) <==>
      line == id + "|" + name && '|' !in id && '|' !in name
  {
    if line == id + "|" + name && '|' !in id && '|' !in name {
      SplitAtSeparator(id, '|', name, {'|'});
      SplitNoSeparator(name, {'|'});
    }
    if ParseEntry(line) == Some((id, name)) {
      var parts := Split(line, {'|'});
      SplitJoin(line, '|');
      SplitPiecesHaveNoSeparator(line, {'|'});
      assert parts[0] in parts && parts[1] in parts;
      assert Join(parts, "|") == parts[0] + "|" + Join(parts[1..], "|");
    }
  }

  /** The (id, name) pairs the discovery output yields, in line order. */
  function Entries(lines: seq<String>): (r: seq<(String, String)>)
    ensures |r| <= |lines|
  {
    if lines == [] then []
    else
      match ParseEntry(lines[0])
      case Some(e) => [e] + Entries(lines[1..])
      case None => Entries(lines[1..])
  }

  /** The entries from line `k` on: line `k`'s own, if any, then the rest. */
  lemma EntriesStep(lines: seq<String>, k: nat)
    requires k < |lines|
    ensures Entries(lines[k..]) ==
      (if ParseEntry(lines[k]).Some? then [ParseEntry(lines[k]).value] else []) + Entries(lines[k + 1..])
  {
    assert lines[k..][1..] == lines[k + 1..];
  }

  /** Every watcher comes from a well-formed discovery line. */
  lemma {:induction false} EntriesAreParsedLines(lines: seq<String>)
    ensures forall e :: e in Entries(lines) ==>
      exists i :: 0 <= i < |lines| && ParseEntry(lines[i]) == Some(e)
    decreases |lines|
  {
    if lines != [] {
      EntriesAreParsedLines(lines[1..]);
      forall e | e in Entries(lines)
        ensures exists i :: 0 <= i < |lines| && ParseEntry(lines[i]) == Some(e)
      {
        if ParseEntry(lines[0]) == Some(e) {
        } else {
          var j :| 0 <= j < |lines[1..]| && ParseEntry(lines[1..][j]) == Some(e);
          assert lines[j + 1] == lines[1..][j];
        }
      }
    }
  }

  /** The (id, name) pairs of a sequence of watchers. */
  function Pairs(ws: seq<DockerLogWatcher>): (r: seq<(String, String)>)
    ensures |r| == |ws|
    ensures forall i :: 0 <= i < |ws| ==> r[i] == (ws[i].containerId, ws[i].containerName)
  {
    seq(|ws|, i requires 0 <= i < |ws| => (ws[i].containerId, ws[i].containerName))
  }

  /** The handles that belong to a sequence of watchers, position by position. */
  function HandlesOf(ws: seq<DockerLogWatcher>): (r: seq<JoinHandle>)
    ensures |r| == |ws|
    ensures forall i :: 0 <= i < |ws| ==> r[i] == JoinHandle(ws[i].containerId)
  {
    seq(|ws|, i requires 0 <= i < |ws| => JoinHandle(ws[i].containerId))
  }

  lemma PairsAppend(ws: seq<DockerLogWatcher>, w: DockerLogWatcher)
    ensures Pairs(ws + [w]) == Pairs(ws) + [(w.containerId, w.containerName)]
    ensures HandlesOf(ws + [w]) == HandlesOf(ws) + [JoinHandle(w.containerId)]
  {
  }

  class DockerLogManager {
    var watchers: seq<DockerLogWatcher>
    var handles: seq<JoinHandle>

    ghost predicate Valid()
      reads this
    {
      forall i, j :: 0 <= i < j < |watchers| ==> watchers[i] != watchers[j]
    }

    constructor ()
      ensures watchers == [] && handles == [] && Valid()
    {
      watchers := [];
      handles := [];
    }

    /**
     * Runs the discovery command. A failure to run it is returned as is and
     * changes nothing (the exit status is not consulted). Otherwise every
     * watcher is stopped, both lists are emptied, and each `id|name` line
     * gets a fresh watcher, seeded with its backlog, and its handle.
     */
    method StartWatchingAllContainers(docker: Docker) returns (r: Result<Unit, String>)
      requires Valid()
      modifies this, watchers
      ensures Valid()
      ensures match docker(DiscoveryArgs)
        case SpawnFailed(e) => r == Err(e) && watchers == old(watchers) && handles == old(handles)
        case Exited(_, out, _) =>
          && r == Ok(Unit)
          && Pairs(watchers) == Entries(Lines(out))
          && handles == HandlesOf(watchers)
      ensures r.Ok? ==>
        (forall w :: w in old(watchers) ==> !w.running && w.logLines == old(w.logLines)) &&
        (forall w :: w in watchers ==>
          fresh(w) && w.running && w.logLines == Backlog(docker(BacklogArgs(w.containerId))))
      ensures r.Err? ==> forall w :: w in watchers ==>
        w.running == old(w.running) && w.logLines == old(w.logLines)
    {
      var output := docker(DiscoveryArgs);
      if output.SpawnFailed? {
        return Err(output.error);
      }
      StopAll();
      watchers := [];
      handles := [];
      WatchEachLine(docker, Lines(output.stdout));
      r := Ok(Unit);
    }

    /** The loop over the discovery output. */
    method WatchEachLine(docker: Docker, lines: seq<String>)
      requires watchers == [] && handles == []
      modifies this
      ensures Valid()
      ensures Pairs(watchers) == Entries(lines) && handles == HandlesOf(watchers)
      ensures forall w :: w in watchers ==>
        fresh(w) && w.running && w.logLines == Backlog(docker(BacklogArgs(w.containerId)))
    {
      var k := 0;
      while k < |lines|
        invariant 0 <= k <= |lines|
        invariant Valid()
        invariant Pairs(watchers) + Entries(lines[k..]) == Entries(lines)
        invariant handles == HandlesOf(watchers)
        invariant forall w :: w in watchers ==>
          fresh(w) && w.running && w.logLines == Backlog(docker(BacklogArgs(w.containerId)))
      {
        ghost var before := Pairs(watchers);
        ghost var entry := if ParseEntry(lines[k]).Some? then [ParseEntry(lines[k]).value] else [];
        EntriesStep(lines, k);
        WatchLine(docker, lines[k]);
        AppendAssoc(before, entry, Entries(lines[k + 1..]));
        k := k + 1;
      }
    }

    /** One line of the discovery output: a watcher and its handle for a
        well-formed line, nothing otherwise. */
    method WatchLine(docker: Docker, line: String)
      requires Valid() && handles == HandlesOf(watchers)
      modifies this
      ensures Valid() && handles == HandlesOf(watchers)
      ensures ParseEntry(line).None? ==> watchers == old(watchers)
      ensures ParseEntry(line).Some? ==>
        && |watchers| == |old(watchers)| + 1
        && watchers == old(watchers) + [watchers[|old(watchers)|]]
        && Pairs(watchers) == Pairs(old(watchers)) + [ParseEntry(line).value]
      ensures forall w :: w in watchers && w !in old(watchers) ==>
        fresh(w) && w.running && w.logLines == Backlog(docker(BacklogArgs(w.containerId)))
    {
      var entry := ParseEntry(line);
      if entry.Some? {
        var watcher := new DockerLogWatcher(entry.value.0, entry.value.1);
        var handle := watcher.StartWatching(docker);
        PairsAppend(watchers, watcher);
        watchers := watchers + [watcher];
        handles := handles + [handle];
      }
    }

    function GetWatcher(index: nat): (r: Option<DockerLogWatcher>)
      reads this
      ensures r.None? <==> index >= WatcherCount()
      ensures r.Some? ==> r.value == watchers[index]
    {
      if index < |watchers| then Some(watchers[index]) else None
    }

    /** Lowers every watcher's flag, then joins the handles last first. */
    method StopAll()
      requires Valid()
      modifies this`handles, watchers
      ensures handles == []
      ensures forall w :: w in watchers ==> !w.running && w.logLines == old(w.logLines)
    {
      var i := 0;
      while i < |watchers|
        invariant 0 <= i <= |watchers|
        invariant forall j :: 0 <= j < i ==> !watchers[j].running
        invariant forall w :: w in watchers ==> w.logLines == old(w.logLines)
      {
        watchers[i].StopWatching();
        i := i + 1;
      }
      while |handles| > 0
        invariant forall w :: w in watchers ==> !w.running && w.logLines == old(w.logLines)
        decreases |handles|
      {
        handles := handles[..|handles| - 1];
      }
    }

    function WatcherCount(): (r: nat)
      reads this
      ensures r == |watchers|
    {
      |watchers|
    }

    method Refresh(docker: Docker) returns (r: Result<Unit, String>)
      requires Valid()
      modifies this, watchers
      ensures Valid()
      ensures match docker(DiscoveryArgs)
        case SpawnFailed(e) => r == Err(e) && watchers == old(watchers) && handles == old(handles)
        case Exited(_, out, _) =>
          r == Ok(Unit) && Pairs(watchers) == Entries(Lines(out)) && handles == HandlesOf(watchers)
      ensures r.Ok? ==>
        (forall w :: w in old(watchers) ==> !w.running && w.logLines == old(w.logLines)) &&
        (forall w :: w in watchers ==>
          fresh(w) && w.running && w.logLines == Backlog(docker(BacklogArgs(w.containerId))))
      ensures r.Err? ==> forall w :: w in watchers ==>
        w.running == old(w.running) && w.logLines == old(w.logLines)
    {
      r := StartWatchingAllContainers(docker);
    }
  }
}
