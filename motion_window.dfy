/** The rolling window of motion magnitudes kept by the view controller,
    and the peak read from it when a note is triggered. */
module MotionWindow {

  /** Number of samples the window keeps. */
  const CAPACITY: nat := 10

  /** Peak reported when no sample has arrived yet. */
  const EMPTY_PEAK: real := 1.2

  function Min(a: nat, b: nat): nat {
    if a <= b then a else b
  }

  /** The window that appending the samples `s`, one by one and in order,
      to an empty history leaves behind: the last min(|s|, CAPACITY) of them. */
  function Recent(s: seq<real>): (w: seq<real>)
    ensures |w| == Min(|s|, CAPACITY)
    ensures forall i :: 0 <= i < |w| ==> w[i] == s[|s| - |w| + i]
  {
    s[|s| - Min(|s|, CAPACITY)..]
  }

  /** The largest value of `h`, or EMPTY_PEAK when `h` is empty. */
  function Peak(h: seq<real>): (p: real)
    ensures h == [] ==> p == EMPTY_PEAK
    ensures h != [] ==> p in h
    ensures forall i :: 0 <= i < |h| ==> h[i] <= p
  {
    if |h| == 0 then EMPTY_PEAK
    else if |h| == 1 then h[0]
    else
      var rest := Peak(h[1..]);
      if h[0] < rest then rest else h[0]
  }

  /** The window never holds more than CAPACITY samples, and it holds all
      of them while fewer than CAPACITY have arrived. */
  lemma RecentBounded(s: seq<real>)
    ensures |Recent(s)| <= CAPACITY
    ensures |s| <= CAPACITY ==> Recent(s) == s
    ensures |s| >= CAPACITY ==> |Recent(s)| == CAPACITY
  {
  }

  /** One step of the source's append-then-evict update turns the window of
      `s` into the window of `s + [v]`: the new sample goes last and, once
      the count exceeds CAPACITY, exactly the oldest element (index 0) is
      removed, the others keeping their order. */
  lemma {:induction false} RecentSnoc(s: seq<real>, v: real)
    ensures var w := Recent(s) + [v];
            Recent(s + [v]) == if |w| > CAPACITY then w[1..] else w
  {
    var w := Recent(s) + [v];
    if |s| < CAPACITY {
      assert Recent(s) == s;
      assert Recent(s + [v]) == s + [v];
    } else {
      var k := |s| - CAPACITY;
      assert Recent(s) == s[k..];
      assert |w| == CAPACITY + 1;
      assert Recent(s + [v]) == (s + [v])[k + 1..];
      assert (s + [v])[k + 1..] == s[k + 1..] + [v];
      assert w[1..] == s[k + 1..] + [v];
    }
  }

  /** Once CAPACITY newer samples have arrived, the older ones are gone from
      the window, and so they can no longer influence the peak. */
  lemma {:induction false} EvictedNeverCount(older: seq<real>, newer: seq<real>)
    requires |newer| >= CAPACITY
    ensures Recent(older + newer) == Recent(newer)
    ensures Peak(Recent(older + newer)) == Peak(Recent(newer))
  {
    var s := older + newer;
    var k := |newer| - CAPACITY;
    assert Recent(newer) == newer[k..];
    assert Recent(s) == s[|older| + k..];
    assert |s[|older| + k..]| == |newer[k..]|;
    forall i | 0 <= i < CAPACITY
      ensures s[|older| + k..][i] == newer[k..][i]
    {
      assert s[|older| + k + i] == newer[k + i];
    }
  }
}
