/**
 * Bounded indices and buffers: `usize` saturating subtraction, positions
 * that wrap around among `n` (tabs, search matches), and the window a
 * ring of capacity `n` keeps.
 */
module Bounded {

  /** `a.saturating_sub(b)` on `usize`. */
  function SaturatingSub(a: nat, b: nat): (r: nat)
    ensures a >= b ==> r + b == a
    ensures a < b ==> r == 0
  {
    if a >= b then a - b else 0
  }

  /** The last `n` elements of `s` (all of `s` when it is shorter). */
  function LastN<T>(s: seq<T>, n: nat): (r: seq<T>)
    ensures |r| == if |s| <= n then |s| else n
    ensures r == s[|s| - |r|..]
  {
    if |s| <= n then s else s[|s| - n..]
  }

  /** Trimming a ring and then appending keeps the same window as appending
      to the untrimmed history: the ring never loses a line it should keep. */
  lemma LastNAppend<T>(s: seq<T>, x: T, n: nat)
    ensures LastN(LastN(s, n) + [x], n) == LastN(s + [x], n)
  {
    var t := LastN(s, n);
    if |s| > n && n > 0 {
      assert t + [x] == (s + [x])[|s| - n..];
      assert (t + [x])[1..] == (s + [x])[|s| + 1 - n..];
    }
  }

  /** The ring after lines `xs` have been pushed one at a time into `buf`. */
  function Feed<T>(buf: seq<T>, xs: seq<T>, n: nat): (r: seq<T>)
    ensures |r| <= n || r == buf + xs
    decreases |xs|
  {
    if xs == [] then buf else Feed(LastN(buf + [xs[0]], n), xs[1..], n)
  }

  /** However many lines arrive, the ring holds exactly the most recent
      `n` of everything that arrived, in arrival order. */
  lemma {:induction false} FeedKeepsMostRecent<T>(history: seq<T>, xs: seq<T>, n: nat)
    ensures Feed(LastN(history, n), xs, n) == LastN(history + xs, n)
    decreases |xs|
  {
    if xs == [] {
      assert history + xs == history;
    } else {
      LastNAppend(history, xs[0], n);
      assert history + xs == (history + [xs[0]]) + xs[1..];
      FeedKeepsMostRecent(history + [xs[0]], xs[1..], n);
    }
  }

  /** The position after `i` among `n`, wrapping around. */
  function NextIndex(i: nat, n: nat): (r: nat)
    requires n > 0
    ensures r < n
    ensures i + 1 < n ==> r == i + 1
    ensures i + 1 == n ==> r == 0
  {
    (i + 1) % n
  }

  /** The position before `i`; the first position's predecessor is the last. */
  function PreviousIndex(i: nat, n: nat): (r: nat)
    requires i > 0 || n > 0
    ensures i > 0 ==> r + 1 == i
    ensures i == 0 ==> r + 1 == n
  {
    if i > 0 then i - 1 else n - 1
  }

  /** On a valid position, moving right then left (or left then right)
      returns to the same position. */
  lemma NextPreviousInverse(i: nat, n: nat)
    requires i < n
    ensures PreviousIndex(NextIndex(i, n), n) == i
    ensures NextIndex(PreviousIndex(i, n), n) == i
  {
  }

  /** The position reached by `k` moves to the right. */
  function NextTimes(i: nat, n: nat, k: nat): (r: nat)
    requires n > 0
    ensures r < n || (k == 0 && r == i)
  {
    if k == 0 then i else NextIndex(NextTimes(i, n, k - 1), n)
  }

  /** Short of the last position, `k` moves to the right advance by exactly `k`. */
  lemma {:induction false} NextTimesAdvances(i: nat, n: nat, k: nat)
    requires i + k < n
    ensures NextTimes(i, n, k) == i + k
  {
    if k > 0 {
      NextTimesAdvances(i, n, k - 1);
    }
  }

  /** Moves compose: `a` moves then `b` moves are `a + b` moves. */
  lemma {:induction false} NextTimesCompose(i: nat, n: nat, a: nat, b: nat)
    requires n > 0
    ensures NextTimes(NextTimes(i, n, a), n, b) == NextTimes(i, n, a + b)
  {
    if b > 0 {
      NextTimesCompose(i, n, a, b - 1);
    }
  }

  /** Going right once per position comes back to the start. */
  lemma NextCycle(i: nat, n: nat)
    requires i < n
    ensures NextTimes(i, n, n) == i
  {
    NextTimesAdvances(i, n, n - 1 - i);
    assert NextTimes(i, n, n - i) == 0;
    NextTimesCompose(i, n, n - i, i);
    if i > 0 {
      NextTimesAdvances(0, n, i);
    }
  }
}
