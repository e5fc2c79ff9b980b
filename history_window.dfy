/**
 * The bounded history both dashboards keep for their bar charts.
 * JavaScript's `arr.slice(-n)` with n > 0 returns the last n elements,
 * or the whole array when it is shorter; `Last` is that operation.
 */
module HistoryWindow {

  /** The dashboards keep at most this many points. */
  const Capacity: nat := 30

  /** `s.slice(-n)` for a positive `n`. */
  function Last<T>(s: seq<T>, n: nat): (r: seq<T>)
    requires n > 0
    ensures |r| == if |s| <= n then |s| else n
    ensures r == s[|s| - |r|..]
  {
    if |s| <= n then s else s[|s| - n..]
  }

  /**
   * The simulator's update, `[...prev.slice(-29), x]`: keep the last 29
   * old points, then append the new one.
   */
  function PushThenTrim29<T>(prev: seq<T>, x: T): (r: seq<T>)
    ensures 0 < |r| <= Capacity
    ensures |r| == if |prev| < Capacity then |prev| + 1 else Capacity
    ensures r[|r| - 1] == x
    ensures |r| - 1 <= |prev|
    ensures r[..|r| - 1] == prev[|prev| - (|r| - 1)..]
    ensures |prev| < Capacity ==> r == prev + [x]
  {
    Last(prev, Capacity - 1) + [x]
  }

  /**
   * The live dashboard's update, `[...prev, x].slice(-30)`: append the new
   * point, then keep the last 30.
   */
  function AppendThenTrim30<T>(prev: seq<T>, x: T): (r: seq<T>)
    ensures 0 < |r| <= Capacity
    ensures |r| == if |prev| < Capacity then |prev| + 1 else Capacity
    ensures r[|r| - 1] == x
    ensures |r| - 1 <= |prev|
    ensures r[..|r| - 1] == prev[|prev| - (|r| - 1)..]
    ensures |prev| < Capacity ==> r == prev + [x]
  {
    Last(prev + [x], Capacity)
  }

  /** The two formulations of the update produce the same window. */
  lemma UpdatesAgree<T>(prev: seq<T>, x: T)
    ensures PushThenTrim29(prev, x) == AppendThenTrim30(prev, x)
  {
  }

  /**
   * The window after feeding the points `xs` one message at a time: it
   * stays within capacity and ends with the latest point.
   */
  function Feed<T>(prev: seq<T>, xs: seq<T>): (r: seq<T>)
    ensures |prev| <= Capacity ==> |r| <= Capacity
    ensures xs != [] ==> |r| > 0 && r[|r| - 1] == xs[|xs| - 1]
  {
    if xs == [] then prev
    else AppendThenTrim30(Feed(prev, xs[..|xs| - 1]), xs[|xs| - 1])
  }

  /** Trimming before appending does not change what a later trim keeps. */
  lemma LastOfAppendedLast<T>(s: seq<T>, x: T, n: nat)
    requires n > 0
    ensures Last(Last(s, n) + [x], n) == Last(s + [x], n)
  {
  }

  /**
   * However many messages arrive, a window that starts within capacity
   * holds exactly the last (up to 30) points of the whole stream, oldest
   * first.
   */
  lemma {:induction false} FeedKeepsLastThirty<T>(prev: seq<T>, xs: seq<T>)
    requires |prev| <= Capacity
    ensures Feed(prev, xs) == Last(prev + xs, Capacity)
  {
    if xs == [] {
      assert prev + xs == prev;
    } else {
      var init, x := xs[..|xs| - 1], xs[|xs| - 1];
      var w := Feed(prev, init);
      FeedKeepsLastThirty(prev, init);
      assert w == Last(prev + init, Capacity);
      LastOfAppendedLast(prev + init, x, Capacity);
      assert xs == init + [x];
      assert prev + xs == prev + init + [x];
      calc {
        Feed(prev, xs);
        AppendThenTrim30(w, x);
        Last(w + [x], Capacity);
        Last(prev + init + [x], Capacity);
      }
    }
  }
}
