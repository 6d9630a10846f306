/**
 * The container-list state of the dashboard: the containers read from
 * `docker ps`, the selection shared by the list and the table views, the
 * case-insensitive filter (kept as a list of indices into the containers),
 * the vim-style jumps that also stretch a visual selection, and the
 * search-result navigation.
 *
 * Docker is reached through the oracle of `Process`; the metadata fetch
 * and the statistics thread are given as inputs (`metadata`,
 * `statsCache`). In compose view the displayed count is the number of
 * compose projects, as computed by `ComposeView`.
 */
module AppState {

  import opened Wrappers
  import opened Text
  import opened Process
  import opened Bounded
  import opened Containers
  import opened ComposeView
  import opened Modes

  datatype ContainerFilter = Running | Recent | All

  function FilterDisplayName(f: ContainerFilter): String {
    match f
    case Running => "RUNNING"
    case Recent => "RECENT"
    case All => "ALL"
  }

  /** `toggle_recent`: to the recent list, or back to running from it. */
  function ToggledRecent(f: ContainerFilter): (r: ContainerFilter)
    ensures r == Recent <==> f != Recent
    ensures r != Recent ==> r == Running
  {
    match f
    case Running => Recent
    case Recent => Running
    case All => Recent
  }

  /** `toggle_all`: to the full list, or back to running from it. */
  function ToggledAll(f: ContainerFilter): (r: ContainerFilter)
    ensures r == All <==> f != All
    ensures r != All ==> r == Running
  {
    match f
    case Running => All
    case Recent => All
    case All => Running
  }

  // ----- IP list formatting -----

  /** The addresses of an IP field: split at commas and spaces, trimmed,
      empty pieces dropped. */
  function IpTokens(ipString: String): (r: seq<String>)
    ensures forall t :: t in r ==> t != []
    ensures |r| <= |Split(ipString, {',', ' '})|
  {
    NonEmpty(TrimAll(Split(ipString, {',', ' '})))
  }

  /** `format_ip_addresses`: up to three addresses joined by `", "`, more
      than three abbreviated with the number left out. */
  function FormatIpAddresses(ipString: String): (r: String)
    ensures r == [] <==> IpTokens(ipString) == []
    ensures 1 <= |IpTokens(ipString)| <= 3 ==> r == Join(IpTokens(ipString), ", ")
    ensures |IpTokens(ipString)| > 3 ==>
      r == Join(IpTokens(ipString)[..3], ", ") + ", ... (+" + NatToString(|IpTokens(ipString)| - 3) + ")"
  {
    var ips := IpTokens(ipString);
    if ips == [] then ""
    else if |ips| <= 3 then
      assert ips[0] in ips;
      JoinNonEmpty(ips, ", ");
      Join(ips, ", ")
    else Join(ips[..3], ", ") + ", ... (+" + NatToString(|ips| - 3) + ")"
  }

  lemma JoinNonEmpty(parts: seq<String>, sep: String)
    requires parts != [] && parts[0] != []
    ensures Join(parts, sep) != []
  {
  }

  /** An address token is non-empty, has no surrounding whitespace and
      contains neither separator. */
  predicate CleanToken(t: String) {
    t != [] && NoOuterWhitespace(t) && ',' !in t && ' ' !in t
  }

  lemma IpTokensClean(ipString: String)
    ensures forall t :: t in IpTokens(ipString) ==> CleanToken(t)
  {
    var pieces := Split(ipString, {',', ' '});
    SplitPiecesHaveNoSeparator(ipString, {',', ' '});
    forall t | t in IpTokens(ipString)
      ensures CleanToken(t)
    {
      assert t in TrimAll(pieces);
      var i :| 0 <= i < |pieces| && t == TrimAll(pieces)[i];
      TrimAllAt(pieces, i);
      assert pieces[i] in pieces;
      TrimmedPieceClean(pieces[i]);
    }
  }

  /** A non-blank piece without separators trims to a clean token. */
  lemma TrimmedPieceClean(piece: String)
    requires ',' !in piece && ' ' !in piece && Trim(piece) != []
    ensures CleanToken(Trim(piece))
  {
    var t := Trim(piece);
    TrimIsSlice(piece);
    var a := SkipWhitespace(piece, 0);
    forall k | 0 <= k < |t|
      ensures t[k] != ',' && t[k] != ' '
    {
      assert t[k] == piece[a + k];
    }
  }

  /** Splitting and cleaning a `", "`-joined list of clean tokens gives the
      tokens back. */
  lemma {:induction false} IpTokensOfJoin(ips: seq<String>)
    requires forall t :: t in ips ==> CleanToken(t)
    ensures IpTokens(Join(ips, ", ")) == ips
    decreases |ips|
  {
    var seps := {',', ' '};
    if ips == [] {
      assert Split([], seps) == [[]];
      assert TrimAll([[]]) == [Trim([])];
    } else {
      var t := ips[0];
      assert t in ips;
      SplitNoSeparator(t, seps);
      TrimIdentity(t);
      if |ips| == 1 {
        assert TrimAll([t]) == [Trim(t)] + TrimAll([]);
      } else {
        var rest := Join(ips[1..], ", ");
        assert forall u :: u in ips[1..] ==> u in ips;
        IpTokensOfJoin(ips[1..]);
        assert Join(ips, ", ") == t + [','] + ([' '] + rest);
        SplitAtSeparator(t, ',', [' '] + rest, seps);
        SplitAtSeparator([], ' ', rest, seps);
        assert [] + [' '] + rest == [' '] + rest;
        var tail := Split(rest, seps);
        assert Split(Join(ips, ", "), seps) == [t] + ([[]] + tail);
        TrimAllAppend([t], [[]] + tail);
        TrimAllAppend([[]], tail);
        assert TrimAll([t]) == [t] by {
          assert TrimAll([t]) == [Trim(t)] + TrimAll([]);
        }
        assert TrimAll([[]]) == [[]] by {
          assert TrimAll([[]]) == [Trim([])] + TrimAll([]);
        }
        NonEmptyAppend([t], [[]] + TrimAll(tail));
        NonEmptyAppend([[]], TrimAll(tail));
      }
    }
  }

  lemma {:induction false} TrimAllAppend(a: seq<String>, b: seq<String>)
    ensures TrimAll(a + b) == TrimAll(a) + TrimAll(b)
    decreases |a|
  {
    if a == [] {
      assert a + b == b;
    } else {
      assert (a + b)[1..] == a[1..] + b;
      TrimAllAppend(a[1..], b);
    }
  }

  lemma {:induction false} NonEmptyAppend(a: seq<String>, b: seq<String>)
    ensures NonEmpty(a + b) == NonEmpty(a) + NonEmpty(b)
    decreases |a|
  {
    if a == [] {
      assert a + b == b;
    } else {
      assert (a + b)[1..] == a[1..] + b;
      NonEmptyAppend(a[1..], b);
    }
  }

  /** Formatting a field of at most three addresses twice changes nothing
      more than formatting it once. */
  lemma FormatIpIdempotent(ipString: String)
    requires |IpTokens(ipString)| <= 3
    ensures FormatIpAddresses(FormatIpAddresses(ipString)) == FormatIpAddresses(ipString)
  {
    var ips := IpTokens(ipString);
    IpTokensClean(ipString);
    if ips == [] {
      assert IpTokens([]) == [] by {
        assert Split([], {',', ' '}) == [[]];
        assert TrimAll([[]]) == [Trim([])] + TrimAll([]);
      }
    } else {
      IpTokensOfJoin(ips);
    }
  }

  // ----- index lists -----

  predicate Ascending(s: seq<nat>) {
    forall i, j :: 0 <= i < j < |s| ==> s[i] < s[j]
  }

  /** Whether the lowercased name, image or status contains `query`. */
  predicate MatchesFilter(c: Container, query: String) {
    Contains(ToLower(c.name), query) || Contains(ToLower(c.image), query) || Contains(ToLower(c.status), query)
  }

  /** The indices of the containers matching `query`, in order. */
  function MatchingIndices(cs: seq<Container>, query: String): (r: seq<nat>)
    ensures |r| <= |cs|
    decreases |cs|
  {
    if cs == [] then []
    else
      MatchingIndices(cs[..|cs| - 1], query) + (if MatchesFilter(cs[|cs| - 1], query) then [|cs| - 1] else [])
  }

  /** The filter's index list holds exactly the matching positions, each
      once, in ascending order. */
  lemma {:induction false} MatchingIndicesSpec(cs: seq<Container>, query: String)
    ensures forall k: nat :: k in MatchingIndices(cs, query) <==> k < |cs| && MatchesFilter(cs[k], query)
    ensures forall j :: 0 <= j < |MatchingIndices(cs, query)| ==> MatchingIndices(cs, query)[j] < |cs|
    ensures Ascending(MatchingIndices(cs, query))
    decreases |cs|
  {
    if cs != [] {
      var init := cs[..|cs| - 1];
      MatchingIndicesSpec(init, query);
      assert forall k :: 0 <= k < |init| ==> init[k] == cs[k];
    }
  }

  /** The indices of the containers whose name is not in `previous`, in
      order. */
  function NewIndices(cs: seq<Container>, previous: set<String>): (r: seq<nat>)
    ensures |r| <= |cs|
    decreases |cs|
  {
    if cs == [] then []
    else
      NewIndices(cs[..|cs| - 1], previous) + (if cs[|cs| - 1].name !in previous then [|cs| - 1] else [])
  }

  /** The new-row list holds exactly the positions of names not seen
      before, each once, in ascending order. */
  lemma {:induction false} NewIndicesSpec(cs: seq<Container>, previous: set<String>)
    ensures forall k: nat :: k in NewIndices(cs, previous) <==> k < |cs| && cs[k].name !in previous
    ensures forall j :: 0 <= j < |NewIndices(cs, previous)| ==> NewIndices(cs, previous)[j] < |cs|
    ensures Ascending(NewIndices(cs, previous))
    decreases |cs|
  {
    if cs != [] {
      var init := cs[..|cs| - 1];
      NewIndicesSpec(init, previous);
      assert forall k :: 0 <= k < |init| ==> init[k] == cs[k];
    }
  }

  /** `filter_map(|&i| containers.get(i))`: the containers at the valid
      indices, in the order of the indices. */
  function Pick<T>(indices: seq<nat>, cs: seq<T>): (r: seq<T>)
    ensures |r| <= |indices|
    ensures forall c :: c in r ==> c in cs
    ensures (forall j :: 0 <= j < |indices| ==> indices[j] < |cs|) ==>
      |r| == |indices| && forall j :: 0 <= j < |r| ==> r[j] == cs[indices[j]]
  {
    if indices == [] then []
    else
      var rest := Pick(indices[1..], cs);
      if indices[0] < |cs| then [cs[indices[0]]] + rest else rest
  }

  // ----- refresh -----

  /** The `docker ps` arguments for each list. */
  function PsArgs(f: ContainerFilter): (r: seq<String>)
    ensures |r| >= 3 && r[0] == "ps" && r[|r| - 1] == "{{.Names}}|{{.Image}}|{{.Status}}|{{.Ports}}"
  {
    ["ps"]
    + (match f
       case Running => []
       case Recent => ["-a", "--filter", "status=exited", "--last", "10"]
       case All => ["-a"])
    + ["--format", "{{.Names}}|{{.Image}}|{{.Status}}|{{.Ports}}"]
  }

  /** Cached (cpu, memory) for `name`, or `N/A` for both. */
  function StatsOf(stats: map<String, (String, String)>, name: String): (r: (String, String))
    ensures name !in stats ==> r == ("N/A", "N/A")
    ensures name in stats ==> r == stats[name]
  {
    if name in stats then stats[name] else ("N/A", "N/A")
  }

  /** One `name|image|status|ports` line: at least four fields make a
      container, with the metadata fields still empty. */
  function ParseContainerLine(line: String, stats: map<String, (String, String)>): (r: Option<Container>)
    ensures r.Some? <==> |Split(line, {'|'})| >= 4
    ensures r.Some? ==> '|' !in r.value.name && r.value.ipAddress == [] && r.value.composeProject == None
  {
    var parts := Split(line, {'|'});
    if |parts| >= 4 then
      SplitPiecesHaveNoSeparator(line, {'|'});
      assert parts[0] in parts;
      var (cpu, memory) := StatsOf(stats, parts[0]);
      Some(Container(parts[0], parts[1], parts[2], "", parts[3], cpu, memory, "", "", "", None))
    else None
  }

  /** A line written from four bar-free fields is read back field by field. */
  lemma ParseContainerLineExact(name: String, image: String, status: String, ports: String,
                                stats: map<String, (String, String)>)
    requires '|' !in name && '|' !in image && '|' !in status && '|' !in ports
    ensures var c := ParseContainerLine(name + "|" + image + "|" + status + "|" + ports, stats);
      c.Some? && c.value.name == name && c.value.image == image &&
      c.value.status == status && c.value.ports == ports &&
      (c.value.cpuUsage, c.value.memoryUsage) == StatsOf(stats, name)
  {
    var seps := {'|'};
    var tail3 := status + "|" + ports;
    var tail2 := image + "|" + tail3;
    assert name + "|" + image + "|" + status + "|" + ports == name + ['|'] + tail2;
    assert tail2 == image + ['|'] + tail3;
    assert tail3 == status + ['|'] + ports;
    SplitAtSeparator(name, '|', tail2, seps);
    SplitAtSeparator(image, '|', tail3, seps);
    SplitAtSeparator(status, '|', ports, seps);
    SplitNoSeparator(ports, seps);
  }

  /** The containers read from the output lines, in order. */
  function Parsed(lines: seq<String>, stats: map<String, (String, String)>): (r: seq<Container>)
    ensures |r| <= |lines|
    decreases |lines|
  {
    if lines == [] then []
    else
      var init := Parsed(lines[..|lines| - 1], stats);
      match ParseContainerLine(lines[|lines| - 1], stats)
      case Some(c) => init + [c]
      case None => init
  }

  lemma ParsedSnoc(lines: seq<String>, i: nat, stats: map<String, (String, String)>)
    requires i < |lines|
    ensures Parsed(lines[..i + 1], stats) == Parsed(lines[..i], stats) +
      (match ParseContainerLine(lines[i], stats) case Some(c) => [c] case None => [])
  {
    assert lines[..i + 1][..i] == lines[..i];
  }

  lemma NewIndicesSnoc(cs: seq<Container>, c: Container, previous: set<String>)
    ensures NewIndices(cs + [c], previous) == NewIndices(cs, previous) + (if c.name !in previous then [|cs|] else [])
  {
    assert (cs + [c])[..|cs|] == cs;
  }

  /** What the metadata fetch reports for one container. */
  datatype Metadata = Metadata(ipAddress: String, imageHash: String, containerId: String,
                               startedAt: String, composeProject: Option<String>)

  function WithMetadata(c: Container, metadata: map<String, Metadata>): (r: Container)
    ensures r.name == c.name && r.image == c.image && r.status == c.status && r.ports == c.ports
    ensures c.name !in metadata ==> r == c
    ensures c.name in metadata ==> (r.ipAddress == metadata[c.name].ipAddress &&
      r.composeProject == metadata[c.name].composeProject)
  {
    if c.name in metadata then
      var m := metadata[c.name];
      c.(ipAddress := m.ipAddress, imageHash := m.imageHash, containerId := m.containerId,
         startedAt := m.startedAt, composeProject := m.composeProject)
    else c
  }

  /** Every row with its fetched metadata applied. */
  function AllWithMetadata(cs: seq<Container>, metadata: map<String, Metadata>): (r: seq<Container>)
    ensures |r| == |cs|
    ensures forall i :: 0 <= i < |r| ==> r[i] == WithMetadata(cs[i], metadata) && r[i].name == cs[i].name
  {
    seq(|cs|, i requires 0 <= i < |cs| => WithMetadata(cs[i], metadata))
  }

  /** The rows a successful `docker ps` printing `out` yields: the parsed
      lines, with the fetched metadata applied when there are any. */
  function Rows(out: String, stats: map<String, (String, String)>, metadata: Option<map<String, Metadata>>): (r: seq<Container>)
    ensures |r| == |Parsed(Lines(out), stats)|
    ensures forall i :: 0 <= i < |r| ==> r[i].name == Parsed(Lines(out), stats)[i].name
  {
    var cs := Parsed(Lines(out), stats);
    if cs != [] && metadata.Some? then AllWithMetadata(cs, metadata.value) else cs
  }

  /** The container list a refresh leaves behind: it is cleared first, so a
      failed run leaves it empty. */
  function Fetched(run: DockerRun, stats: map<String, (String, String)>, metadata: Option<map<String, Metadata>>): (r: seq<Container>)
    ensures !(run.Exited? && run.success) ==> r == []
  {
    if run.Exited? && run.success then Rows(run.stdout, stats, metadata) else []
  }

  /** The selection after a refresh: none for an empty list, the first row
      when there was none or it fell off the end, otherwise kept. */
  function SelectionAfterRefresh(selected: Option<nat>, count: nat): (r: Option<nat>)
    ensures count == 0 ==> r == None
    ensures count > 0 ==> r.Some? && r.value < count
    ensures count > 0 && selected.Some? && selected.value < count ==> r == selected
  {
    if count == 0 then None
    else if selected.None? || selected.value >= count then Some(0)
    else selected
  }

  /** The part of a name before its first `-`. */
  function NamePrefix(name: String): (r: String)
    ensures '-' !in r && IsPrefix(r, name)
  {
    SplitFirstPiece(name, {'-'});
    Split(name, {'-'})[0]
  }

  /** The first piece of a split is a separator-free prefix. */
  lemma {:induction false} SplitFirstPiece(s: String, seps: set<char>)
    ensures IsPrefix(Split(s, seps)[0], s)
    ensures forall k :: 0 <= k < |Split(s, seps)[0]| ==> Split(s, seps)[0][k] !in seps
    decreases |s|
  {
    if s != [] && s[0] !in seps {
      SplitFirstPiece(s[1..], seps);
    }
  }

  /** The first position after `current` whose name prefix differs. */
  function NextWordStart(names: seq<String>, current: nat, from: nat): (r: Option<nat>)
    requires current < |names| && current < from <= |names|
    ensures r.Some? ==> (from <= r.value < |names| &&
      NamePrefix(names[r.value]) != NamePrefix(names[current]) &&
      forall k :: from <= k < r.value ==> NamePrefix(names[k]) == NamePrefix(names[current]))
    ensures r.None? ==> forall k :: from <= k < |names| ==> NamePrefix(names[k]) == NamePrefix(names[current])
    decreases |names| - from
  {
    if from == |names| then None
    else if NamePrefix(names[from]) != NamePrefix(names[current]) then Some(from)
    else NextWordStart(names, current, from + 1)
  }

  /** The last position before `upto` whose name prefix differs from the
      one at `current`. */
  function PreviousWordStart(names: seq<String>, current: nat, upto: nat): (r: Option<nat>)
    requires current < |names| && upto <= current
    ensures r.Some? ==> (r.value < upto &&
      NamePrefix(names[r.value]) != NamePrefix(names[current]) &&
      forall k :: r.value < k < upto ==> NamePrefix(names[k]) == NamePrefix(names[current]))
    ensures r.None? ==> forall k :: 0 <= k < upto ==> NamePrefix(names[k]) == NamePrefix(names[current])
  {
    if upto == 0 then None
    else if NamePrefix(names[upto - 1]) != NamePrefix(names[current]) then Some(upto - 1)
    else PreviousWordStart(names, current, upto - 1)
  }

  /** Where `word_next` lands: the next row with a different name prefix,
      or the last row. */
  function WordNextTarget(names: seq<String>, current: nat, count: nat): (r: nat)
    requires current < |names| && count > 0
    ensures NextWordStart(names, current, current + 1).None? ==> r == count - 1
    ensures NextWordStart(names, current, current + 1).Some? ==>
      current < r < |names| && NamePrefix(names[r]) != NamePrefix(names[current])
  {
    match NextWordStart(names, current, current + 1)
    case Some(j) => j
    case None => count - 1
  }

  /** Where `word_previous` lands: the previous row with a different name
      prefix, or the first row. */
  function WordPreviousTarget(names: seq<String>, current: nat): (r: nat)
    requires current < |names|
    ensures PreviousWordStart(names, current, current).None? ==> r == 0
    ensures PreviousWordStart(names, current, current).Some? ==>
      r < current && NamePrefix(names[r]) != NamePrefix(names[current])
  {
    match PreviousWordStart(names, current, current)
    case Some(j) => j
    case None => 0
  }

  class AppState {
    var containers: seq<Container>
    /** The list view's and the table view's selected rows. */
    var listSelected: Option<nat>
    var tableSelected: Option<nat>
    var composeViewMode: bool
    var containerFilter: ContainerFilter
    var filterText: String
    /** Indices into `containers` of the rows the filter keeps. */
    var filteredContainers: seq<nat>
    var mode: Mode
    var visualSelection: Option<VisualSelection>
    const searchState: SearchState
    var previousContainerNames: set<String>
    var newContainerIndices: seq<nat>
    /** Statistics collected in the background, by container name. */
    var statsCache: map<String, (String, String)>

    function VisualFrame(): set<object>
      reads this
    {
      if visualSelection.Some? then {visualSelection.value} else {}
    }

    /** Both views select the same row, and a visual selection spans its
        anchor and cursor. */
    ghost predicate Valid()
      reads this, VisualFrame()
    {
      && listSelected == tableSelected
      && (visualSelection.Some? ==> visualSelection.value.Valid())
    }

    /** Every filtered index names a container. */
    ghost predicate FilterIndicesValid()
      reads this`filteredContainers, this`containers
    {
      forall j :: 0 <= j < |filteredContainers| ==> filteredContainers[j] < |containers|
    }

    constructor ()
      ensures containers == [] && listSelected == Some(0) && tableSelected == Some(0)
      ensures !composeViewMode && containerFilter == Running && filterText == [] && filteredContainers == []
      ensures mode == Normal && visualSelection == None && fresh(searchState)
      ensures previousContainerNames == {} && newContainerIndices == [] && statsCache == map[]
      ensures Valid()
    {
      containers := [];
      listSelected := Some(0);
      tableSelected := Some(0);
      composeViewMode := false;
      containerFilter := Running;
      filterText := [];
      filteredContainers := [];
      mode := Normal;
      visualSelection := None;
      searchState := new SearchState();
      previousContainerNames := {};
      newContainerIndices := [];
      statsCache := map[];
    }

    /** `get_displayed_containers`. */
    function Displayed(): (r: seq<Container>)
      reads this`filterText, this`filteredContainers, this`containers
      ensures filterText == [] ==> r == containers
      ensures forall c :: c in r ==> c in containers
    {
      if filterText == [] then containers else Pick(filteredContainers, containers)
    }

    /** `get_displayed_container_count`. */
    function DisplayedCount(docker: Docker): (r: nat)
      reads this`composeViewMode, this`filterText, this`filteredContainers, this`containers
      ensures !composeViewMode && FilterIndicesValid() ==> r == |Displayed()|
    {
      if composeViewMode then ProjectCount(containers, docker)
      else if filterText == [] then |containers|
      else |filteredContainers|
    }

    /** `get_selected_container`: the selected row, looked up through the
        filter's index list when a filter is set. */
    function SelectedContainer(): (r: Option<Container>)
      reads this`listSelected, this`filterText, this`filteredContainers, this`containers
      ensures r.Some? ==> r.value in containers
      ensures r.Some? ==> listSelected.Some?
      ensures FilterIndicesValid() && listSelected.Some? ==>
        (r.Some? <==> listSelected.value < |Displayed()|) &&
        (r.Some? ==> r.value == Displayed()[listSelected.value])
    {
      match listSelected
      case None => None
      case Some(i) =>
        if filterText == [] then
          if i < |containers| then Some(containers[i]) else None
        else if i < |filteredContainers| && filteredContainers[i] < |containers| then
          Some(containers[filteredContainers[i]])
        else None
    }

    /** Sets both views' selection. */
    method SelectBoth(selected: Option<nat>)
      modifies this`listSelected, this`tableSelected
      ensures listSelected == selected && tableSelected == selected
    {
      listSelected := selected;
      tableSelected := selected;
    }

    /** Selects row `i` and stretches a visual selection to it. */
    method SelectAt(i: nat)
      requires Valid()
      modifies this`listSelected, this`tableSelected, VisualFrame()
      ensures visualSelection.Some? ==> visualSelection.value.startIndex == old(visualSelection.value.startIndex)
      ensures Valid() && listSelected == Some(i)
      ensures visualSelection.Some? ==> visualSelection.value.currentIndex == i
    {
      SelectBoth(Some(i));
      if visualSelection.Some? {
        visualSelection.value.ExtendTo(i);
      }
    }

    /** Down one row, wrapping from the last to the first. */
    method Next(docker: Docker)
      requires Valid()
      modifies this`listSelected, this`tableSelected
      ensures Valid()
      ensures old(DisplayedCount(docker)) == 0 ==> listSelected == old(listSelected)
      ensures old(DisplayedCount(docker)) > 0 ==> listSelected.Some? && listSelected.value < old(DisplayedCount(docker))
      ensures old(DisplayedCount(docker)) > 0 ==> match old(listSelected)
        case None => listSelected == Some(0)
        case Some(i) =>
          && (i < old(DisplayedCount(docker)) ==> listSelected == Some(NextIndex(i, old(DisplayedCount(docker)))))
          && (i >= old(DisplayedCount(docker)) ==> listSelected == Some(0))
    {
      var count := DisplayedCount(docker);
      if count == 0 {
        return;
      }
      var i := match listSelected
        case Some(i) => if i >= SaturatingSub(count, 1) then 0 else i + 1
        case None => 0;
      SelectBoth(Some(i));
    }

    /** Up one row, wrapping from the first to the last; a stale selection
        past the end only steps back by one. */
    method Previous(docker: Docker)
      requires Valid()
      modifies this`listSelected, this`tableSelected
      ensures Valid()
      ensures old(DisplayedCount(docker)) == 0 ==> listSelected == old(listSelected)
      ensures old(DisplayedCount(docker)) > 0 ==> match old(listSelected)
        case None => listSelected == Some(0)
        case Some(i) =>
          && (i < old(DisplayedCount(docker)) ==> listSelected == Some(PreviousIndex(i, old(DisplayedCount(docker)))))
          && (i >= old(DisplayedCount(docker)) ==> listSelected == Some(i - 1))
    {
      var count := DisplayedCount(docker);
      if count == 0 {
        return;
      }
      var i := match listSelected
        case Some(i) => if i == 0 then SaturatingSub(count, 1) else i - 1
        case None => 0;
      SelectBoth(Some(i));
    }

    /** Installs `text` as the filter and recomputes the index list. */
    method UpdateFilter(text: String)
      requires Valid()
      modifies this`filterText, this`filteredContainers, this`listSelected, this`tableSelected
      ensures Valid() && filterText == text && FilterIndicesValid()
      ensures text == [] ==> filteredContainers == [] && listSelected == old(listSelected)
      ensures text != [] ==> filteredContainers == MatchingIndices(containers, ToLower(text))
      ensures text != [] ==> listSelected == if filteredContainers != [] then Some(0) else None
    {
      filterText := text;
      ApplyFilter();
    }

    /** `apply_filter`: the ascending indices of the containers whose
        name, image or status contains the filter, ignoring case. */
    method ApplyFilter()
      requires Valid()
      modifies this`filteredContainers, this`listSelected, this`tableSelected
      ensures Valid() && FilterIndicesValid()
      ensures filterText == [] ==> filteredContainers == [] && listSelected == old(listSelected)
      ensures filterText != [] ==> filteredContainers == MatchingIndices(containers, ToLower(filterText))
      ensures filterText != [] ==> listSelected == if filteredContainers != [] then Some(0) else None
    {
      if filterText == [] {
        filteredContainers := [];
        return;
      }
      var filterLower := ToLower(filterText);
      filteredContainers := MatchingIndices(containers, filterLower);
      MatchingIndicesSpec(containers, filterLower);
      if filteredContainers != [] {
        SelectBoth(Some(0));
      } else {
        SelectBoth(None);
      }
    }

    /** Drops the filter; the first row is selected when there is one. */
    method ClearFilter()
      requires Valid()
      modifies this`filterText, this`filteredContainers, this`listSelected, this`tableSelected
      ensures Valid() && filterText == [] && filteredContainers == []
      ensures containers != [] ==> listSelected == Some(0)
      ensures containers == [] ==> listSelected == old(listSelected)
    {
      filterText := [];
      filteredContainers := [];
      if containers != [] {
        SelectBoth(Some(0));
      }
    }

    method GoToFirst(docker: Docker)
      requires Valid()
      modifies this`listSelected, this`tableSelected, VisualFrame()
      ensures visualSelection.Some? ==> visualSelection.value.startIndex == old(visualSelection.value.startIndex)
      ensures Valid()
      ensures old(DisplayedCount(docker)) == 0 ==> (listSelected == old(listSelected) &&
        (visualSelection.Some? ==> visualSelection.value.currentIndex == old(visualSelection.value.currentIndex)))
      ensures old(DisplayedCount(docker)) > 0 ==> (listSelected == Some(0) &&
        (visualSelection.Some? ==> visualSelection.value.currentIndex == 0))
    {
      var count := DisplayedCount(docker);
      if count > 0 {
        SelectAt(0);
      }
    }

    method GoToLast(docker: Docker)
      requires Valid()
      modifies this`listSelected, this`tableSelected, VisualFrame()
      ensures visualSelection.Some? ==> visualSelection.value.startIndex == old(visualSelection.value.startIndex)
      ensures Valid()
      ensures old(DisplayedCount(docker)) == 0 ==> (listSelected == old(listSelected) &&
        (visualSelection.Some? ==> visualSelection.value.currentIndex == old(visualSelection.value.currentIndex)))
      ensures old(DisplayedCount(docker)) > 0 ==> (listSelected == Some(old(DisplayedCount(docker)) - 1) &&
        (visualSelection.Some? ==> visualSelection.value.currentIndex == old(DisplayedCount(docker)) - 1))
    {
      var count := DisplayedCount(docker);
      if count > 0 {
        SelectAt(count - 1);
      }
    }

    /** Up by half the row count, stopping at the first row. */
    method HalfPageUp(docker: Docker)
      requires Valid()
      modifies this`listSelected, this`tableSelected, VisualFrame()
      ensures visualSelection.Some? ==> visualSelection.value.startIndex == old(visualSelection.value.startIndex)
      ensures Valid()
      ensures old(DisplayedCount(docker)) == 0 || old(listSelected).None? ==> (listSelected == old(listSelected) &&
        (visualSelection.Some? ==> visualSelection.value.currentIndex == old(visualSelection.value.currentIndex)))
      ensures old(DisplayedCount(docker)) > 0 && old(listSelected).Some? ==>
        listSelected == Some(SaturatingSub(old(listSelected).value, old(DisplayedCount(docker)) / 2)) &&
        (visualSelection.Some? ==> visualSelection.value.currentIndex == listSelected.value)
    {
      var count := DisplayedCount(docker);
      if count == 0 {
        return;
      }
      if listSelected.Some? {
        var current := listSelected.value;
        var newPos := SaturatingSub(current, count / 2);
        SelectAt(newPos);
      }
    }

    /** Down by half the row count, stopping at the last row. */
    method HalfPageDown(docker: Docker)
      requires Valid()
      modifies this`listSelected, this`tableSelected, VisualFrame()
      ensures visualSelection.Some? ==> visualSelection.value.startIndex == old(visualSelection.value.startIndex)
      ensures Valid()
      ensures old(DisplayedCount(docker)) == 0 || old(listSelected).None? ==> (listSelected == old(listSelected) &&
        (visualSelection.Some? ==> visualSelection.value.currentIndex == old(visualSelection.value.currentIndex)))
      ensures old(DisplayedCount(docker)) > 0 && old(listSelected).Some? ==>
        && listSelected.Some? && listSelected.value < old(DisplayedCount(docker))
        && (old(listSelected).value + old(DisplayedCount(docker)) / 2 < old(DisplayedCount(docker)) ==>
              listSelected == Some(old(listSelected).value + old(DisplayedCount(docker)) / 2))
        && (old(listSelected).value + old(DisplayedCount(docker)) / 2 >= old(DisplayedCount(docker)) ==>
              listSelected == Some(old(DisplayedCount(docker)) - 1))
        && (visualSelection.Some? ==> visualSelection.value.currentIndex == listSelected.value)
    {
      var count := DisplayedCount(docker);
      if count == 0 {
        return;
      }
      if listSelected.Some? {
        var current := listSelected.value;
        var newPos := if current + count / 2 < count - 1 then current + count / 2 else count - 1;
        SelectAt(newPos);
      }
    }

    /** The loop of `word_next`: the first later row whose name prefix
        differs from the current one. */
    static method FindNextWord(names: seq<String>, current: nat) returns (found: Option<nat>)
      requires current < |names|
      ensures found == NextWordStart(names, current, current + 1)
    {
      var currentPrefix := NamePrefix(names[current]);
      var i := current + 1;
      while i < |names|
        invariant current < i <= |names|
        invariant NextWordStart(names, current, current + 1) == NextWordStart(names, current, i)
      {
        if NamePrefix(names[i]) != currentPrefix {
          return Some(i);
        }
        i := i + 1;
      }
      return None;
    }

    /** The loop of `word_previous`: the last earlier row whose name prefix
        differs from the current one. */
    static method FindPreviousWord(names: seq<String>, current: nat) returns (found: Option<nat>)
      requires current < |names|
      ensures found == PreviousWordStart(names, current, current)
    {
      var currentPrefix := NamePrefix(names[current]);
      var i := current;
      while i > 0
        invariant i <= current
        invariant PreviousWordStart(names, current, current) == PreviousWordStart(names, current, i)
      {
        if NamePrefix(names[i - 1]) != currentPrefix {
          return Some(i - 1);
        }
        i := i - 1;
      }
      return None;
    }

    /** Jumps to the next row whose name prefix (text before the first
        `-`) differs, or to the last row when there is none. */
    method WordNext(docker: Docker)
      requires Valid()
      modifies this`listSelected, this`tableSelected, VisualFrame()
      ensures visualSelection.Some? ==> visualSelection.value.startIndex == old(visualSelection.value.startIndex)
      ensures Valid()
      ensures var d := old(NamesOf(Displayed()));
        old(DisplayedCount(docker)) > 0 && old(listSelected).Some? && old(listSelected).value < |d| ==>
          listSelected == Some(WordNextTarget(d, old(listSelected).value, old(DisplayedCount(docker))))
      ensures var d := old(NamesOf(Displayed()));
        old(DisplayedCount(docker)) == 0 || old(listSelected).None? || old(listSelected).value >= |d| ==>
          listSelected == old(listSelected)
      ensures listSelected != old(listSelected) && visualSelection.Some? ==>
        visualSelection.value.currentIndex == listSelected.value
      ensures var d := old(NamesOf(Displayed()));
        old(DisplayedCount(docker)) > 0 && old(listSelected).Some? && old(listSelected).value < |d| && visualSelection.Some? ==>
          visualSelection.value.currentIndex == listSelected.value
    {
      var count := DisplayedCount(docker);
      if count == 0 {
        return;
      }
      if listSelected.Some? {
        var current := listSelected.value;
        var names := NamesOf(Displayed());
        if current >= |names| {
          return;
        }
        var found := FindNextWord(names, current);
        match found
        case Some(i) => SelectAt(i);
        case None => GoToLast(docker);
        assert listSelected == Some(WordNextTarget(names, current, count));
      }
    }

    /** Jumps to the previous row whose name prefix differs, or to the
        first row when there is none. */
    method WordPrevious(docker: Docker)
      requires Valid()
      modifies this`listSelected, this`tableSelected, VisualFrame()
      ensures visualSelection.Some? ==> visualSelection.value.startIndex == old(visualSelection.value.startIndex)
      ensures Valid()
      ensures var d := old(NamesOf(Displayed()));
        old(DisplayedCount(docker)) > 0 && old(listSelected).Some? && old(listSelected).value < |d| ==>
          listSelected == Some(WordPreviousTarget(d, old(listSelected).value))
      ensures var d := old(NamesOf(Displayed()));
        old(DisplayedCount(docker)) == 0 || old(listSelected).None? || old(listSelected).value >= |d| ==>
          listSelected == old(listSelected)
      ensures listSelected != old(listSelected) && visualSelection.Some? ==>
        visualSelection.value.currentIndex == listSelected.value
      ensures var d := old(NamesOf(Displayed()));
        old(DisplayedCount(docker)) > 0 && old(listSelected).Some? && old(listSelected).value < |d| && visualSelection.Some? ==>
          visualSelection.value.currentIndex == listSelected.value
    {
      var count := DisplayedCount(docker);
      if count == 0 {
        return;
      }
      if listSelected.Some? {
        var current := listSelected.value;
        var names := NamesOf(Displayed());
        if current >= |names| {
          return;
        }
        var found := FindPreviousWord(names, current);
        match found
        case Some(i) => SelectAt(i);
        case None => GoToFirst(docker);
        assert listSelected == Some(WordPreviousTarget(names, current));
      }
    }

    /** The rows an action applies to: the visual selection in ascending
        order, else the selected row, else nothing. */
    method GetSelectedIndices() returns (r: seq<nat>)
      requires Valid()
      ensures visualSelection.Some? ==>
        Ascending(r) && forall i :: i in r <==> i in visualSelection.value.selectedIndices
      ensures visualSelection.None? && listSelected.Some? ==> r == [listSelected.value]
      ensures visualSelection.None? && listSelected.None? ==> r == []
    {
      match visualSelection
      case Some(selection) =>
        var lo := if selection.startIndex < selection.currentIndex then selection.startIndex else selection.currentIndex;
        var hi := if selection.startIndex < selection.currentIndex then selection.currentIndex else selection.startIndex;
        r := [];
        var i := lo;
        while i <= hi
          invariant lo <= i <= hi + 1
          invariant |r| == i - lo && forall k :: 0 <= k < |r| ==> r[k] == lo + k
        {
          r := r + [i];
          i := i + 1;
        }
        forall x: nat
          ensures x in r <==> lo <= x <= hi
        {
          if lo <= x <= hi {
            assert r[x - lo] == x;
          }
        }
      case None =>
        r := if listSelected.Some? then [listSelected.value] else [];
    }

    /** Starts a visual selection anchored at the selected row. */
    method EnterVisualMode()
      modifies this`mode, this`visualSelection
      ensures old(listSelected).None? ==> mode == old(mode) && visualSelection == old(visualSelection)
      ensures listSelected.Some? ==> mode == Visual && visualSelection.Some? && fresh(visualSelection.value)
      ensures listSelected.Some? ==> (visualSelection.value.startIndex == listSelected.value &&
        visualSelection.value.selectedIndices == {listSelected.value} && visualSelection.value.Valid())
    {
      if listSelected.Some? {
        mode := Visual;
        var selection := new VisualSelection(listSelected.value);
        visualSelection := Some(selection);
      }
    }

    /** Selects the next match in the search direction. */
    method NextSearchResult()
      requires Valid()
      requires searchState.matches != [] && searchState.currentMatch.Some? && !searchState.isForward ==>
        searchState.currentMatch.value <= |searchState.matches|
      modifies this`listSelected, this`tableSelected, searchState`currentMatch
      ensures Valid()
      ensures searchState.matches == [] ==> listSelected == old(listSelected)
      ensures searchState.matches != [] ==>
        && searchState.currentMatch == Some(NextMatchIndex(old(searchState.currentMatch), |searchState.matches|, searchState.isForward))
        && listSelected == Some(searchState.matches[searchState.currentMatch.value])
    {
      var m := searchState.NextMatch();
      if m.Some? {
        SelectBoth(m);
      }
    }

    /** Selects the match before the current one; the search direction is
        forward afterwards, whatever it was before. */
    method PreviousSearchResult()
      requires Valid()
      requires searchState.matches != [] && searchState.currentMatch.Some? ==>
        searchState.currentMatch.value <= |searchState.matches|
      modifies this`listSelected, this`tableSelected, searchState`currentMatch, searchState`isForward
      ensures Valid() && searchState.isForward
      ensures searchState.matches == [] ==> listSelected == old(listSelected)
      ensures searchState.matches != [] ==>
        && searchState.currentMatch == Some(NextMatchIndex(old(searchState.currentMatch), |searchState.matches|, false))
        && listSelected == Some(searchState.matches[searchState.currentMatch.value])
    {
      searchState.isForward := false;
      var m := searchState.NextMatch();
      if m.Some? {
        SelectBoth(m);
      }
      searchState.isForward := true;
    }

    /**
     * `refresh_containers`: clears the list, asks docker for the rows of
     * the current list kind and parses them; on success also applies the
     * fetched metadata, records the names for the next refresh, marks the
     * rows whose names are new and repairs the selection. On failure the
     * list stays empty and the selection is left as it was.
     */
    method RefreshContainers(docker: Docker, metadata: Option<map<String, Metadata>>) returns (r: Result<Unit, String>)
      requires Valid()
      modifies this`containers, this`newContainerIndices, this`previousContainerNames,
        this`listSelected, this`tableSelected
      ensures Valid()
      ensures containers == Fetched(docker(PsArgs(containerFilter)), statsCache, metadata)
      ensures match docker(PsArgs(containerFilter))
        case SpawnFailed(e) =>
          r == Err("Failed to execute docker command: " + e) &&
          newContainerIndices == [] && listSelected == old(listSelected) &&
          previousContainerNames == old(previousContainerNames)
        case Exited(false, _, err) =>
          r == Err("Docker command failed: " + err) &&
          newContainerIndices == [] && listSelected == old(listSelected) &&
          previousContainerNames == old(previousContainerNames)
        case Exited(true, _, _) =>
          && r == Ok(Unit)
          && newContainerIndices == NewIndices(containers, NameSet(old(containers)))
          && previousContainerNames == NameSet(containers)
          && listSelected == SelectionAfterRefresh(old(listSelected), |containers|)
    {
      var previousNames := NameSet(containers);
      containers := [];
      newContainerIndices := [];
      var output := docker(PsArgs(containerFilter));
      if output.SpawnFailed? {
        return Err("Failed to execute docker command: " + output.error);
      }
      if !output.success {
        return Err("Docker command failed: " + output.stderr);
      }
      LoadRows(output.stdout, previousNames, metadata);
      r := Ok(Unit);
    }

    /** The successful part of the refresh. */
    method LoadRows(out: String, previousNames: set<String>, metadata: Option<map<String, Metadata>>)
      requires Valid() && containers == [] && newContainerIndices == []
      modifies this`containers, this`newContainerIndices, this`previousContainerNames,
        this`listSelected, this`tableSelected
      ensures Valid()
      ensures containers == Rows(out, statsCache, metadata)
      ensures newContainerIndices == NewIndices(containers, previousNames)
      ensures previousContainerNames == NameSet(containers)
      ensures listSelected == SelectionAfterRefresh(old(listSelected), |containers|)
    {
      ReadRows(out, previousNames, metadata);
      previousContainerNames := NameSet(containers);
      if containers == [] {
        SelectBoth(None);
      } else if listSelected.None? || listSelected.value >= |containers| {
        SelectBoth(Some(0));
      }
    }

    /** The rows of the refresh: the parsed lines, then the metadata. */
    method ReadRows(out: String, previousNames: set<String>, metadata: Option<map<String, Metadata>>)
      requires containers == [] && newContainerIndices == []
      modifies this`containers, this`newContainerIndices
      ensures containers == Rows(out, statsCache, metadata)
      ensures newContainerIndices == NewIndices(containers, previousNames)
    {
      ParseOutput(Lines(out), previousNames);
      if containers != [] && metadata.Some? {
        ghost var parsed := containers;
        ApplyMetadata(metadata.value);
        NewIndicesByName(parsed, containers, previousNames);
      }
    }

    /** The parsing loop of the refresh. */
    method ParseOutput(lines: seq<String>, previousNames: set<String>)
      requires containers == [] && newContainerIndices == []
      modifies this`containers, this`newContainerIndices
      ensures containers == Parsed(lines, statsCache)
      ensures newContainerIndices == NewIndices(containers, previousNames)
    {
      var stats := statsCache;
      for i := 0 to |lines|
        invariant containers == Parsed(lines[..i], stats)
        invariant newContainerIndices == NewIndices(containers, previousNames)
      {
        ParsedSnoc(lines, i, stats);
        ParseLine(lines[i], stats, previousNames);
      }
      assert lines[..|lines|] == lines;
    }

    /** One pass of the parsing loop: a well-formed line appends its
        container, and its index too when the name is new. */
    method ParseLine(line: String, stats: map<String, (String, String)>, previousNames: set<String>)
      requires newContainerIndices == NewIndices(containers, previousNames)
      modifies this`containers, this`newContainerIndices
      ensures containers == old(containers) + (match ParseContainerLine(line, stats) case Some(c) => [c] case None => [])
      ensures newContainerIndices == NewIndices(containers, previousNames)
    {
      var parsed := ParseContainerLine(line, stats);
      if parsed.Some? {
        var container := parsed.value;
        NewIndicesSnoc(containers, container, previousNames);
        containers := containers + [container];
        if container.name !in previousNames {
          newContainerIndices := newContainerIndices + [|containers| - 1];
        }
      }
    }

    /** The metadata loop of the refresh. */
    method ApplyMetadata(metadata: map<String, Metadata>)
      modifies this`containers
      ensures containers == AllWithMetadata(old(containers), metadata)
    {
      ghost var parsed := containers;
      for i := 0 to |containers|
        invariant |containers| == |parsed|
        invariant forall k :: 0 <= k < i ==> containers[k] == WithMetadata(parsed[k], metadata)
        invariant forall k :: i <= k < |containers| ==> containers[k] == parsed[k]
      {
        containers := containers[i := WithMetadata(containers[i], metadata)];
      }
    }

    /** The refresh after a filter toggle: its error is ignored, and the
        first row is selected when there are rows. */
    method RefreshFromTop(docker: Docker, metadata: Option<map<String, Metadata>>)
      requires Valid()
      modifies this`containers, this`newContainerIndices, this`previousContainerNames,
        this`listSelected, this`tableSelected
      ensures Valid()
      ensures containers == Fetched(docker(PsArgs(containerFilter)), statsCache, metadata)
      ensures match docker(PsArgs(containerFilter))
        case Exited(true, _, _) =>
          && newContainerIndices == NewIndices(containers, NameSet(old(containers)))
          && previousContainerNames == NameSet(containers)
          && listSelected == (if containers == [] then None else Some(0))
        case _ =>
          && containers == [] && newContainerIndices == []
          && previousContainerNames == old(previousContainerNames)
          && listSelected == old(listSelected)
    {
      var _ := RefreshContainers(docker, metadata);
      if containers != [] {
        SelectBoth(Some(0));
      }
    }

    /** `toggle_recent`, then a refresh whose failure is ignored. */
    method ToggleRecent(docker: Docker, metadata: Option<map<String, Metadata>>)
      requires Valid()
      modifies this`containerFilter, this`containers, this`newContainerIndices, this`previousContainerNames,
        this`listSelected, this`tableSelected
      ensures Valid() && containerFilter == ToggledRecent(old(containerFilter))
      ensures containers == Fetched(docker(PsArgs(containerFilter)), statsCache, metadata)
      ensures match docker(PsArgs(containerFilter))
        case Exited(true, _, _) =>
          && newContainerIndices == NewIndices(containers, NameSet(old(containers)))
          && previousContainerNames == NameSet(containers)
          && listSelected == (if containers == [] then None else Some(0))
        case _ =>
          && containers == [] && newContainerIndices == []
          && previousContainerNames == old(previousContainerNames)
          && listSelected == old(listSelected)
    {
      containerFilter := ToggledRecent(containerFilter);
      RefreshFromTop(docker, metadata);
    }

    /** `toggle_all`, then a refresh whose failure is ignored. */
    method ToggleAll(docker: Docker, metadata: Option<map<String, Metadata>>)
      requires Valid()
      modifies this`containerFilter, this`containers, this`newContainerIndices, this`previousContainerNames,
        this`listSelected, this`tableSelected
      ensures Valid() && containerFilter == ToggledAll(old(containerFilter))
      ensures containers == Fetched(docker(PsArgs(containerFilter)), statsCache, metadata)
      ensures match docker(PsArgs(containerFilter))
        case Exited(true, _, _) =>
          && newContainerIndices == NewIndices(containers, NameSet(old(containers)))
          && previousContainerNames == NameSet(containers)
          && listSelected == (if containers == [] then None else Some(0))
        case _ =>
          && containers == [] && newContainerIndices == []
          && previousContainerNames == old(previousContainerNames)
          && listSelected == old(listSelected)
    {
      containerFilter := ToggledAll(containerFilter);
      RefreshFromTop(docker, metadata);
    }
  }

  /** The set of the names of `cs`. */
  function NameSet(cs: seq<Container>): (r: set<String>)
    ensures forall n :: n in r <==> exists i :: 0 <= i < |cs| && cs[i].name == n
  {
    set i | 0 <= i < |cs| :: cs[i].name
  }

  /** Applying metadata keeps names, so the new-row indices are unchanged. */
  lemma NewIndicesByName(a: seq<Container>, b: seq<Container>, previous: set<String>)
    requires |a| == |b| && forall i :: 0 <= i < |a| ==> a[i].name == b[i].name
    ensures NewIndices(a, previous) == NewIndices(b, previous)
    decreases |a|
  {
    if a != [] {
      NewIndicesByName(a[..|a| - 1], b[..|b| - 1], previous);
    }
  }
}
