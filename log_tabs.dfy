/**
 * The tab strip of the log viewer: one title per watched container and
 * the index of the active tab. Moving right past the last tab wraps to the
 * first and moving left past the first wraps to the last; with no tabs
 * every move is ignored.
 */
module SharedLogTabs {

  import opened Wrappers
  import opened Text
  import opened Bounded

  class LogTabs {
    var titles: seq<String>
    var index: nat

    /** The active index names a tab, or is 0 when there are none. */
    ghost predicate Valid()
      reads this
    {
      index < |titles| || (titles == [] && index == 0)
    }

    constructor (titles: seq<String>)
      ensures this.titles == titles && index == 0 && Valid()
    {
      this.titles := titles;
      index := 0;
    }

    method Next()
      modifies this`index
      ensures titles == [] ==> index == old(index)
      ensures titles != [] ==> index == NextIndex(old(index), |titles|)
      ensures old(Valid()) ==> Valid()
    {
      if titles != [] {
        index := NextIndex(index, |titles|);
      }
    }

    method Previous()
      modifies this`index
      ensures titles == [] ==> index == old(index)
      ensures titles != [] ==> index == PreviousIndex(old(index), |titles|)
      ensures old(Valid()) ==> Valid()
    {
      if titles == [] {
        return;
      }
      index := PreviousIndex(index, |titles|);
    }

    /** Selects `index` when it names a tab; otherwise nothing changes. */
    method SetIndex(index: nat)
      modifies this`index
      ensures index < |titles| ==> this.index == index
      ensures index >= |titles| ==> this.index == old(this.index)
      ensures old(Valid()) ==> Valid()
    {
      if index < |titles| {
        this.index := index;
      }
    }

    function GetActiveTabName(): (r: Option<String>)
      reads this
      ensures r.Some? <==> index < |titles|
      ensures r.Some? ==> r.value == titles[index]
    {
      if index < |titles| then Some(titles[index]) else None
    }
  }
}
