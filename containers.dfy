/**
 * The container record shared by the dashboard's list state, its compose
 * view and its context menu.
 */
module Containers {

  import opened Wrappers
  import opened Text

  /** One row of the container list. The fields after `ports` are filled
      in from cached statistics and from the metadata fetch. */
  datatype Container = Container(
    name: String,
    image: String,
    status: String,
    ipAddress: String,
    ports: String,
    cpuUsage: String,
    memoryUsage: String,
    imageHash: String,
    containerId: String,
    startedAt: String,
    composeProject: Option<String>)

  /** The names of `cs`, in order. */
  function NamesOf(cs: seq<Container>): (r: seq<String>)
    ensures |r| == |cs|
    ensures forall i :: 0 <= i < |cs| ==> r[i] == cs[i].name
  {
    seq(|cs|, i requires 0 <= i < |cs| => cs[i].name)
  }
}
