/**
 * Log collection for the log-viewer binary: one `DockerLogWatcher` per
 * container keeps a bounded ring of the container's most recent log lines,
 * and a `DockerLogManager` discovers the running containers and owns one
 * watcher per container.
 *
 * The background reader threads are modelled by the step method
 * `ReaderStep`, which performs what one loop iteration of a reader thread
 * does under the lock; calling the steps in any order stands for any
 * interleaving of the two readers with the rest of the program.
 */
module LogWatcher {

  import opened Wrappers
  import opened Text
  import opened Process
  import opened Bounded

  /** Capacity the manager gives every watcher it creates. */
  const ManagerCapacity: nat := 1000

  /** The prefix put before every line read from standard error. */
  const StderrPrefix: String := "ERROR: "

  /** The two streams of `docker logs --follow`. */
  datatype Stream = Stdout | Stderr

  /** The arguments the reader thread passes to docker for `name`. */
  function FollowArgs(name: String): (r: seq<String>)
    ensures |r| == 5 && r[0] == "logs" && r[4] == name
  {
    ["logs", "--follow", "--tail", "100", name]
  }

  /** The text stored for a line read from `stream`. */
  function Entry(stream: Stream, line: String): (r: String)
    ensures stream == Stdout ==> r == line
    ensures stream == Stderr ==> |r| == |StderrPrefix| + |line| && r[..|StderrPrefix|] == StderrPrefix && r[|StderrPrefix|..] == line
  {
    if stream == Stdout then line else StderrPrefix + line
  }

  class DockerLogWatcher {
    const containerName: String
    const maxLogs: nat
    /** The shared ring of collected lines, oldest first. */
    var logs: seq<String>
    /** The shared `running` flag the readers consult. */
    var running: bool
    /** Whether a join handle for the collector thread is held. */
    var hasHandle: bool

    /** The ring never exceeds its capacity, and the flag is only up
        while a collector thread is held. */
    ghost predicate Valid()
      reads this
    {
      |logs| <= maxLogs && (running ==> hasHandle)
    }

    constructor (containerName: String, maxLogs: nat)
      ensures this.containerName == containerName && this.maxLogs == maxLogs
      ensures logs == [] && !running && !hasHandle
      ensures Valid()
    {
      this.containerName := containerName;
      this.maxLogs := maxLogs;
      logs := [];
      running := false;
      hasHandle := false;
    }

    /** Raises the flag and records the collector thread; never fails. */
    method Start() returns (r: Result<Unit, String>)
      requires Valid()
      modifies this`running, this`hasHandle
      ensures Valid()
      ensures r == Ok(Unit)
      ensures running && hasHandle
    {
      running := true;
      hasHandle := true;
      r := Ok(Unit);
    }

    /**
     * One iteration of a reader thread. `line` is `None` when the line
     * could not be read; the answer says whether the reader goes on.
     */
    method ReaderStep(stream: Stream, line: Option<String>) returns (goOn: bool)
      requires Valid()
      modifies this`logs
      ensures Valid()
      ensures goOn == running
      ensures !running || line.None? ==> logs == old(logs)
      ensures running && line.Some? ==>
        logs == LastN(old(logs) + [Entry(stream, line.value)], maxLogs)
    {
      if !running {
        return false;
      }
      goOn := true;
      if line.Some? {
        logs := logs + [Entry(stream, line.value)];
        DropOldest();
      }
    }

    /** Drops lines from the front until at most `maxLogs` remain. */
    method DropOldest()
      modifies this`logs
      ensures logs == LastN(old(logs), maxLogs)
    {
      ghost var full := logs;
      while |logs| > maxLogs
        invariant |logs| <= |full| && logs == full[|full| - |logs|..]
        invariant |logs| >= if |full| <= maxLogs then |full| else maxLogs
        decreases |logs|
      {
        logs := logs[1..];
      }
    }

    /** Lowers the flag and joins, only when a handle is held. */
    method Stop()
      requires Valid()
      modifies this`running, this`hasHandle
      ensures Valid() && !running
      ensures !hasHandle
      ensures running == (old(running) && !old(hasHandle))
    {
      if hasHandle {
        hasHandle := false;
        running := false;
      }
    }

    /** Snapshot of the ring, oldest line first. */
    function GetLogs(): (r: seq<String>)
      reads this
      requires Valid()
      ensures |r| <= maxLogs
      ensures r == logs
    {
      logs
    }

    function ContainerName(): (r: String)
      ensures r == containerName
    {
      containerName
    }
  }

  /** A started watcher that is stopped collects nothing more. */
  method StoppedWatcherCollectsNothing(w: DockerLogWatcher, stream: Stream, line: Option<String>)
    requires w.Valid() && w.hasHandle
    modifies w
    ensures w.logs == old(w.logs) && !w.running
  {
    w.Stop();
    var goOn := w.ReaderStep(stream, line);
    assert !goOn;
  }

  /** Names of the containers whose logs are collected after a successful
      discovery whose standard output was `out`. */
  function DiscoveredNames(out: String): (r: seq<String>)
    ensures forall n :: n in r ==> n != []
  {
    NonEmpty(TrimAll(Lines(out)))
  }

  /** Every discovered name is non-empty, carries no surrounding
      whitespace and no line break, and there is at most one per line. */
  lemma DiscoveredNamesAreClean(out: String)
    ensures |DiscoveredNames(out)| <= |Lines(out)|
    ensures forall n :: n in DiscoveredNames(out) ==>
      n != [] && NoOuterWhitespace(n) && '\n' !in n
  {
    var lines := Lines(out);
    LinesHaveNoNewline(out);
    forall n | n in DiscoveredNames(out)
      ensures n != [] && NoOuterWhitespace(n) && '\n' !in n
    {
      assert n in TrimAll(lines);
      var i :| 0 <= i < |lines| && n == TrimAll(lines)[i];
      TrimAllAt(lines, i);
      TrimIsSlice(lines[i]);
      assert lines[i] in lines;
    }
  }

  /** The container names of a sequence of watchers. */
  function Names(ws: seq<DockerLogWatcher>): (r: seq<String>)
    ensures |r| == |ws|
    ensures forall i :: 0 <= i < |ws| ==> r[i] == ws[i].containerName
  {
    seq(|ws|, i requires 0 <= i < |ws| => ws[i].containerName)
  }

  /** The lines from `k` on give the trimmed `k`-th line, unless it is
      blank, followed by what the lines after it give. */
  lemma NonEmptyTrimStep(lines: seq<String>, k: nat)
    requires k < |lines|
    ensures NonEmpty(TrimAll(lines[k..])) ==
      (if Trim(lines[k]) == [] then [] else [Trim(lines[k])]) + NonEmpty(TrimAll(lines[k + 1..]))
  {
    assert lines[k..][1..] == lines[k + 1..];
  }

  lemma NamesAppend(ws: seq<DockerLogWatcher>, w: DockerLogWatcher)
    ensures Names(ws + [w]) == Names(ws) + [w.containerName]
  {
  }

  class DockerLogManager {
    var watchers: seq<DockerLogWatcher>

    ghost predicate Valid()
      reads this, watchers
    {
      (forall i, j :: 0 <= i < j < |watchers| ==> watchers[i] != watchers[j]) &&
      (forall w :: w in watchers ==> w.Valid() && w.maxLogs == ManagerCapacity)
    }

    constructor ()
      ensures watchers == [] && Valid()
    {
      watchers := [];
    }

    /** Creates a 1000-line watcher for `name`, starts it and keeps it. */
    method StartWatchingContainer(name: String) returns (r: Result<Unit, String>)
      requires Valid()
      modifies this
      ensures Valid() && r.Ok?
      ensures |watchers| == |old(watchers)| + 1 && watchers == old(watchers) + [watchers[|old(watchers)|]]
      ensures var w := watchers[|old(watchers)|];
        fresh(w) && w.containerName == name && w.logs == [] && w.running && w.hasHandle
    {
      var w := new DockerLogWatcher(name, ManagerCapacity);
      r := w.Start();
      watchers := watchers + [w];
    }

    /** Stops every watcher; the list itself is kept. */
    method StopAll()
      requires Valid()
      modifies watchers
      ensures Valid()
      ensures forall w :: w in watchers ==>
        !w.hasHandle && w.running == (old(w.running) && !old(w.hasHandle)) && w.logs == old(w.logs)
      ensures forall w :: w in watchers ==> !w.running
    {
      var i := 0;
      while i < |watchers|
        invariant 0 <= i <= |watchers|
        invariant Valid()
        invariant forall j :: 0 <= j < i ==>
          !watchers[j].hasHandle && !watchers[j].running &&
          watchers[j].running == (old(watchers[j].running) && !old(watchers[j].hasHandle))
        invariant forall j :: i <= j < |watchers| ==>
          watchers[j].hasHandle == old(watchers[j].hasHandle) && watchers[j].running == old(watchers[j].running)
        invariant forall w :: w in watchers ==> w.logs == old(w.logs)
      {
        watchers[i].Stop();
        i := i + 1;
      }
    }

    /**
     * Asks docker for the running containers' names. On failure the
     * watchers are left alone; on success every old watcher is stopped and
     * dropped, and one fresh watcher is started per non-blank output line.
     */
    method StartWatchingAllContainers(docker: Docker) returns (r: Result<Unit, String>)
      requires Valid()
      modifies this, watchers
      ensures Valid()
      ensures match docker(["ps", "--format", "{{.Names}}"])
        case SpawnFailed(e) =>
          r == Err("Failed to execute docker command: " + e) && watchers == old(watchers)
        case Exited(false, _, err) =>
          r == Err("Docker command failed: " + err) && watchers == old(watchers)
        case Exited(true, out, _) =>
          r == Ok(Unit) && Names(watchers) == DiscoveredNames(out)
      ensures r.Ok? ==>
        (forall w :: w in old(watchers) ==> !w.hasHandle && !w.running && w.logs == old(w.logs)) &&
        (forall w :: w in watchers ==> fresh(w) && w.running && w.hasHandle && w.logs == [])
      ensures r.Err? ==> forall w :: w in watchers ==>
        w.running == old(w.running) && w.hasHandle == old(w.hasHandle) && w.logs == old(w.logs)
    {
      var output := docker(["ps", "--format", "{{.Names}}"]);
      if output.SpawnFailed? {
        return Err("Failed to execute docker command: " + output.error);
      }
      if !output.success {
        return Err("Docker command failed: " + output.stderr);
      }
      StopAll();
      watchers := [];
      WatchEachLine(Lines(output.stdout));
      r := Ok(Unit);
    }

    /** The loop over the discovery output: one started watcher per line
        that is not blank once trimmed. */
    method WatchEachLine(lines: seq<String>)
      requires watchers == []
      modifies this
      ensures Valid()
      ensures Names(watchers) == NonEmpty(TrimAll(lines))
      ensures forall w :: w in watchers ==> fresh(w) && w.running && w.hasHandle && w.logs == []
    {
      var k := 0;
      while k < |lines|
        invariant 0 <= k <= |lines|
        invariant Valid()
        invariant Names(watchers) + NonEmpty(TrimAll(lines[k..])) == NonEmpty(TrimAll(lines))
        invariant forall w :: w in watchers ==> fresh(w) && w.running && w.hasHandle && w.logs == []
      {
        ghost var before := Names(watchers);
        ghost var rest := NonEmpty(TrimAll(lines[k + 1..]));
        ghost var named := if Trim(lines[k]) == [] then [] else [Trim(lines[k])];
        NonEmptyTrimStep(lines, k);
        WatchLine(lines[k]);
        AppendAssoc(before, named, rest);
        k := k + 1;
      }
    }

    /** One iteration of that loop: a watcher for the trimmed line, unless
        it is blank. */
    method WatchLine(line: String)
      requires Valid()
      modifies this
      ensures Valid()
      ensures Names(watchers) == old(Names(watchers)) + (if Trim(line) == [] then [] else [Trim(line)])
      ensures forall w :: w in watchers ==>
        w in old(watchers) || (fresh(w) && w.running && w.hasHandle && w.logs == [])
    {
      var name := Trim(line);
      if name != [] {
        ghost var before := watchers;
        var _ := StartWatchingContainer(name);
        NamesAppend(before, watchers[|before|]);
      }
    }

    /** The watcher at `index`, if there is one. */
    function GetWatcher(index: nat): (r: Option<DockerLogWatcher>)
      reads this
      ensures r.None? <==> index >= WatcherCount()
      ensures r.Some? ==> r.value == watchers[index]
    {
      if index < |watchers| then Some(watchers[index]) else None
    }

    function WatcherCount(): (r: nat)
      reads this
      ensures r == |watchers|
    {
      |watchers|
    }

    /** Re-runs the discovery. */
    method Refresh(docker: Docker) returns (r: Result<Unit, String>)
      requires Valid()
      modifies this, watchers
      ensures Valid()
      ensures match docker(["ps", "--format", "{{.Names}}"])
        case SpawnFailed(e) =>
          r == Err("Failed to execute docker command: " + e) && watchers == old(watchers)
        case Exited(false, _, err) =>
          r == Err("Docker command failed: " + err) && watchers == old(watchers)
        case Exited(true, out, _) =>
          r == Ok(Unit) && Names(watchers) == DiscoveredNames(out)
      ensures r.Ok? ==>
        (forall w :: w in old(watchers) ==> !w.hasHandle && !w.running && w.logs == old(w.logs)) &&
        (forall w :: w in watchers ==> fresh(w) && w.running && w.hasHandle && w.logs == [])
      ensures r.Err? ==> forall w :: w in watchers ==>
        w.running == old(w.running) && w.hasHandle == old(w.hasHandle) && w.logs == old(w.logs)
    {
      r := StartWatchingAllContainers(docker);
    }
  }
}
