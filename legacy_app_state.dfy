/**
 * The first generation of the container-list state: five-field containers,
 * a selection shared by the list and table views, and the
 * case-insensitive filter kept as a list of indices.
 *
 * Its refresh asks docker for each container's IP address while reading
 * the list, and gives up with an error, keeping the rows read so far,
 * when such a query cannot be started.
 */
module LegacyAppState {

  import opened Wrappers
  import opened Text
  import opened Process
  import opened Bounded
  import Current = AppState

  datatype Container = Container(name: String, image: String, status: String, ipAddress: String, ports: String)

  const PsArgs: seq<String> := ["ps", "--format", "{{.Names}}|{{.Image}}|{{.Status}}|{{.Ports}}"]

  /** The arguments of the per-container IP query. */
  function IpArgs(name: String): (r: seq<String>)
    ensures |r| == 4 && r[0] == "inspect" && r[3] == name
  {
    ["inspect", "--format", "{{range .NetworkSettings.Networks}}{{.IPAddress}}{{end}}", name]
  }

  /** The rows read from a listing, and the error of the IP query that
      stopped the reading, if one did. */
  datatype Loaded = Loaded(rows: seq<Container>, failure: Option<String>)

  /** What one listing line gives: nothing, a row, or the error of an IP
      query that could not be started. */
  datatype LineOutcome = Skipped | Row(container: Container) | Failed(error: String)

  /** A line with at least four `|`-separated fields becomes a row whose
      address is the trimmed output of its IP query. */
  function ReadLineOutcome(line: String, docker: Docker): (r: LineOutcome)
    ensures r.Skipped? <==> |Split(line, {'|'})| < 4
    ensures r.Row? ==> r.container.name == Split(line, {'|'})[0] && NoOuterWhitespace(r.container.ipAddress)
  {
    var parts := Split(line, {'|'});
    if |parts| < 4 then Skipped
    else
      match docker(IpArgs(parts[0]))
      case SpawnFailed(e) => Failed(e)
      case Exited(_, out, _) => Row(Container(parts[0], parts[1], parts[2], Trim(out), parts[3]))
  }

  /** Reads the listing lines front to back; a query that cannot be
      started ends the reading. */
  function LoadRows(lines: seq<String>, docker: Docker): (r: Loaded)
    ensures |r.rows| <= |lines|
    decreases |lines|
  {
    if lines == [] then Loaded([], None)
    else
      match ReadLineOutcome(lines[0], docker)
      case Skipped => LoadRows(lines[1..], docker)
      case Failed(e) => Loaded([], Some(e))
      case Row(c) =>
        var rest := LoadRows(lines[1..], docker);
        Loaded([c] + rest.rows, rest.failure)
  }

  /** Reading from line `k` is reading line `k`, then the rest. */
  lemma LoadRowsStep(lines: seq<String>, k: nat, docker: Docker)
    requires k < |lines|
    ensures LoadRows(lines[k..], docker) ==
      match ReadLineOutcome(lines[k], docker)
      case Skipped => LoadRows(lines[k + 1..], docker)
      case Failed(e) => Loaded([], Some(e))
      case Row(c) => Loaded([c] + LoadRows(lines[k + 1..], docker).rows, LoadRows(lines[k + 1..], docker).failure)
  {
    assert lines[k..][0] == lines[k];
    assert lines[k..][1..] == lines[k + 1..];
  }

  /** Every row read has a bar-free name and a trimmed address. */
  lemma {:induction false} LoadedRowsAreClean(lines: seq<String>, docker: Docker)
    ensures forall c :: c in LoadRows(lines, docker).rows ==> '|' !in c.name && NoOuterWhitespace(c.ipAddress)
    decreases |lines|
  {
    if lines != [] {
      LoadedRowsAreClean(lines[1..], docker);
      SplitPiecesHaveNoSeparator(lines[0], {'|'});
      assert Split(lines[0], {'|'})[0] in Split(lines[0], {'|'});
    }
  }

  /** Without a failed query, every line with four fields gives a row. */
  lemma {:induction false} LoadRowsComplete(lines: seq<String>, docker: Docker)
    requires LoadRows(lines, docker).failure.None?
    ensures |LoadRows(lines, docker).rows| == CountRows(lines)
    decreases |lines|
  {
    if lines != [] {
      LoadRowsComplete(lines[1..], docker);
    }
  }

  /** The number of lines with at least four fields. */
  function CountRows(lines: seq<String>): (r: nat)
    ensures r <= |lines|
  {
    if lines == [] then 0
    else (if |Split(lines[0], {'|'})| >= 4 then 1 else 0) + CountRows(lines[1..])
  }

  predicate MatchesFilter(c: Container, query: String) {
    Contains(ToLower(c.name), query) || Contains(ToLower(c.image), query) || Contains(ToLower(c.status), query)
  }

  /** The indices of the containers matching `query`, in order. */
  function MatchingIndices(cs: seq<Container>, query: String): (r: seq<nat>)
    ensures |r| <= |cs|
    decreases |cs|
  {
    if cs == [] then []
    else
      MatchingIndices(cs[..|cs| - 1], query) + (if MatchesFilter(cs[|cs| - 1], query) then [|cs| - 1] else [])
  }

  /** The filter's index list holds exactly the matching positions, each
      once, in ascending order. */
  lemma {:induction false} MatchingIndicesSpec(cs: seq<Container>, query: String)
    ensures forall k: nat :: k in MatchingIndices(cs, query) <==> k < |cs| && MatchesFilter(cs[k], query)
    ensures forall j :: 0 <= j < |MatchingIndices(cs, query)| ==> MatchingIndices(cs, query)[j] < |cs|
    ensures Current.Ascending(MatchingIndices(cs, query))
    decreases |cs|
  {
    if cs != [] {
      var init := cs[..|cs| - 1];
      MatchingIndicesSpec(init, query);
      assert forall k :: 0 <= k < |init| ==> init[k] == cs[k];
    }
  }

  class AppState {
    var containers: seq<Container>
    var listSelected: Option<nat>
    var tableSelected: Option<nat>
    var filterText: String
    var filteredContainers: seq<nat>

    ghost predicate Valid()
      reads this
    {
      listSelected == tableSelected
    }

    ghost predicate FilterIndicesValid()
      reads this
    {
      forall j :: 0 <= j < |filteredContainers| ==> filteredContainers[j] < |containers|
    }

    constructor ()
      ensures containers == [] && filterText == [] && filteredContainers == []
      ensures listSelected == Some(0) && Valid()
    {
      containers := [];
      listSelected := Some(0);
      tableSelected := Some(0);
      filterText := [];
      filteredContainers := [];
    }

    function Displayed(): (r: seq<Container>)
      reads this
      ensures filterText == [] ==> r == containers
      ensures forall c :: c in r ==> c in containers
    {
      if filterText == [] then containers else Current.Pick(filteredContainers, containers)
    }

    function DisplayedCount(): (r: nat)
      reads this
      ensures filterText == [] ==> r == |containers|
      ensures FilterIndicesValid() ==> r == |Displayed()|
    {
      if filterText == [] then |containers| else |filteredContainers|
    }

    function SelectedContainer(): (r: Option<Container>)
      reads this
      ensures r.Some? ==> r.value in containers && listSelected.Some?
      ensures FilterIndicesValid() && listSelected.Some? ==>
        (r.Some? <==> listSelected.value < |Displayed()|) &&
        (r.Some? ==> r.value == Displayed()[listSelected.value])
    {
      match listSelected
      case None => None
      case Some(i) =>
        if filterText == [] then
          if i < |containers| then Some(containers[i]) else None
        else if i < |filteredContainers| && filteredContainers[i] < |containers| then
          Some(containers[filteredContainers[i]])
        else None
    }

    method SelectBoth(selected: Option<nat>)
      modifies this`listSelected, this`tableSelected
      ensures listSelected == selected && tableSelected == selected
    {
      listSelected := selected;
      tableSelected := selected;
    }

    method Next()
      requires Valid()
      modifies this`listSelected, this`tableSelected
      ensures Valid()
      ensures DisplayedCount() == 0 ==> listSelected == old(listSelected)
      ensures DisplayedCount() > 0 ==> listSelected.Some? && listSelected.value < DisplayedCount()
      ensures DisplayedCount() > 0 ==> match old(listSelected)
        case None => listSelected == Some(0)
        case Some(i) =>
          && (i < DisplayedCount() ==> listSelected == Some(NextIndex(i, DisplayedCount())))
          && (i >= DisplayedCount() ==> listSelected == Some(0))
    {
      var count := DisplayedCount();
      if count == 0 {
        return;
      }
      var i := match listSelected
        case Some(i) => if i >= SaturatingSub(count, 1) then 0 else i + 1
        case None => 0;
      SelectBoth(Some(i));
    }

    method Previous()
      requires Valid()
      modifies this`listSelected, this`tableSelected
      ensures Valid()
      ensures DisplayedCount() == 0 ==> listSelected == old(listSelected)
      ensures DisplayedCount() > 0 ==> match old(listSelected)
        case None => listSelected == Some(0)
        case Some(i) =>
          && (i < DisplayedCount() ==> listSelected == Some(PreviousIndex(i, DisplayedCount())))
          && (i >= DisplayedCount() ==> listSelected == Some(i - 1))
    {
      var count := DisplayedCount();
      if count == 0 {
        return;
      }
      var i := match listSelected
        case Some(i) => if i == 0 then SaturatingSub(count, 1) else i - 1
        case None => 0;
      SelectBoth(Some(i));
    }

    /**
     * Clears the list, lists the running containers and reads them with
     * their addresses. A failed listing leaves the list empty; a failed
     * address query keeps the rows before it; in both cases the selection
     * is left alone. Otherwise the selection is repaired.
     */
    method RefreshContainers(docker: Docker) returns (r: Result<Unit, String>)
      requires Valid()
      modifies this`containers, this`listSelected, this`tableSelected
      ensures Valid()
      ensures match docker(PsArgs)
        case SpawnFailed(e) =>
          r == Err("Failed to execute docker command: " + e) && containers == [] && listSelected == old(listSelected)
        case Exited(false, _, err) =>
          r == Err("Docker command failed: " + err) && containers == [] && listSelected == old(listSelected)
        case Exited(true, out, _) =>
          var loaded := LoadRows(Lines(out), docker);
          && containers == loaded.rows
          && (loaded.failure.Some? ==>
                r == Err("Failed to get container IP: " + loaded.failure.value) && listSelected == old(listSelected))
          && (loaded.failure.None? ==>
                r == Ok(Unit) && listSelected == Current.SelectionAfterRefresh(old(listSelected), |containers|))
    {
      containers := [];
      var output := docker(PsArgs);
      if output.SpawnFailed? {
        return Err("Failed to execute docker command: " + output.error);
      }
      if !output.success {
        return Err("Docker command failed: " + output.stderr);
      }
      var failure := LoadListing(Lines(output.stdout), docker);
      if failure.Some? {
        return Err("Failed to get container IP: " + failure.value);
      }
      if containers == [] {
        SelectBoth(None);
      } else if listSelected.None? || listSelected.value >= |containers| {
        SelectBoth(Some(0));
      }
      r := Ok(Unit);
    }

    /** The reading loop of the refresh: appends one row per four-field
        line and stops at the first address query that cannot start. */
    method LoadListing(lines: seq<String>, docker: Docker) returns (failure: Option<String>)
      requires containers == []
      modifies this`containers
      ensures containers == LoadRows(lines, docker).rows
      ensures failure == LoadRows(lines, docker).failure
    {
      ghost var all := LoadRows(lines, docker);
      var k := 0;
      while k < |lines|
        invariant 0 <= k <= |lines|
        invariant containers + LoadRows(lines[k..], docker).rows == all.rows
        invariant LoadRows(lines[k..], docker).failure == all.failure
      {
        LoadRowsStep(lines, k, docker);
        ghost var rest := LoadRows(lines[k + 1..], docker);
        var outcome := ReadLine(lines[k], docker);
        match outcome {
          case Failed(e) =>
            assert containers + [] == containers;
            return Some(e);
          case Row(c) =>
            assert containers + [c] + rest.rows == containers + ([c] + rest.rows);
            containers := containers + [c];
          case Skipped =>
        }
        k := k + 1;
      }
      assert lines[k..] == [];
      failure := None;
    }

    /** The body of the reading loop for one line. */
    static method ReadLine(line: String, docker: Docker) returns (outcome: LineOutcome)
      ensures outcome == ReadLineOutcome(line, docker)
    {
      var parts := Split(line, {'|'});
      if |parts| < 4 {
        return Skipped;
      }
      var name := parts[0];
      var image := parts[1];
      var status := parts[2];
      var ports := parts[3];
      var ipOutput := docker(IpArgs(name));
      if ipOutput.SpawnFailed? {
        return Failed(ipOutput.error);
      }
      var ipAddress := Trim(ipOutput.stdout);
      return Row(Container(name, image, status, ipAddress, ports));
    }

    method UpdateFilter(text: String)
      requires Valid()
      modifies this`filterText, this`filteredContainers, this`listSelected, this`tableSelected
      ensures Valid() && filterText == text && FilterIndicesValid()
      ensures text == [] ==> filteredContainers == [] && listSelected == old(listSelected)
      ensures text != [] ==> filteredContainers == MatchingIndices(containers, ToLower(text))
      ensures text != [] ==> listSelected == if filteredContainers != [] then Some(0) else None
    {
      filterText := text;
      ApplyFilter();
    }

    method ApplyFilter()
      requires Valid()
      modifies this`filteredContainers, this`listSelected, this`tableSelected
      ensures Valid() && FilterIndicesValid()
      ensures filterText == [] ==> filteredContainers == [] && listSelected == old(listSelected)
      ensures filterText != [] ==> filteredContainers == MatchingIndices(containers, ToLower(filterText))
      ensures filterText != [] ==> listSelected == if filteredContainers != [] then Some(0) else None
    {
      if filterText == [] {
        filteredContainers := [];
        return;
      }
      var filterLower := ToLower(filterText);
      filteredContainers := MatchingIndices(containers, filterLower);
      MatchingIndicesSpec(containers, filterLower);
      if filteredContainers != [] {
        SelectBoth(Some(0));
      } else {
        SelectBoth(None);
      }
    }

    method ClearFilter()
      requires Valid()
      modifies this`filterText, this`filteredContainers, this`listSelected, this`tableSelected
      ensures Valid() && filterText == [] && filteredContainers == []
      ensures containers != [] ==> listSelected == Some(0)
      ensures containers == [] ==> listSelected == old(listSelected)
    {
      filterText := [];
      filteredContainers := [];
      if containers != [] {
        SelectBoth(Some(0));
      }
    }
  }
}
