/**
 * The tab strip of the original binary. Its moves do not check for an
 * empty strip: `next` divides by the number of tabs and `previous`
 * computes `len - 1`, so both are callable only where that is defined.
 */
module LegacyLogTabs {

  import opened Wrappers
  import opened Text
  import opened Bounded

  class LogTabs {
    var titles: seq<String>
    var index: nat

    constructor (titles: seq<String>)
      ensures this.titles == titles && index == 0
    {
      this.titles := titles;
      index := 0;
    }

    /** Panics (remainder by zero) on an empty strip. */
    method Next()
      requires |titles| > 0
      modifies this`index
      ensures index == NextIndex(old(index), |titles|)
    {
      index := (index + 1) % |titles|;
    }

    /** Underflows on an empty strip at index 0. */
    method Previous()
      requires index > 0 || |titles| > 0
      modifies this`index
      ensures index == PreviousIndex(old(index), |titles|)
    {
      if index > 0 {
        index := index - 1;
      } else {
        index := |titles| - 1;
      }
    }

    method SetIndex(index: nat)
      modifies this`index
      ensures index < |titles| ==> this.index == index
      ensures index >= |titles| ==> this.index == old(this.index)
    {
      if index < |titles| {
        this.index := index;
      }
    }

    function GetActive(): (r: Option<String>)
      reads this
      ensures r.Some? <==> index < |titles|
      ensures r.Some? ==> r.value == titles[index]
    {
      if index < |titles| then Some(titles[index]) else None
    }
  }
}
