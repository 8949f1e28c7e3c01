/**
 * The five-slot moving-average windows of the vacuum backend, as values. A window is
 * a buffer of MAXAVG slots plus the number of insertions so far; while that count is
 * below MAXAVG the buffer grows, afterwards it is a FIFO of the last MAXAVG samples.
 * The in-place version (VacuumBackend::averaging) is proved against Insert.
 */
module MovingAverage {

  /** Window depth, MAXAVG. */
  const MAXAVG: nat := 5

  function Sum(s: seq<real>): real
  {
    if s == [] then 0.0 else Sum(s[..|s| - 1]) + s[|s| - 1]
  }

  function Mean(s: seq<real>): real
    requires |s| > 0
  {
    Sum(s) / |s| as real
  }

  function Min(a: nat, b: nat): nat { if a <= b then a else b }

  /** The samples a buffer currently holds: its first min(count, MAXAVG) slots. */
  function Window(slots: seq<real>, count: nat): (w: seq<real>)
    requires |slots| == MAXAVG
    ensures |w| <= MAXAVG
  {
    slots[..Min(count, MAXAVG)]
  }

  /** The last MAXAVG elements of a sequence (all of it when shorter). */
  function LastFive(s: seq<real>): (r: seq<real>)
    ensures |r| == Min(|s|, MAXAVG)
    ensures r == s[|s| - |r|..]
  {
    if |s| <= MAXAVG then s else s[|s| - MAXAVG..]
  }

  /** Result of one insertion: the new buffer, the new count and the mean returned. */
  datatype Insertion = Insertion(slots: seq<real>, count: nat, mean: real)

  /**
   * One call of averaging: below MAXAVG the sample goes to slot `count` and the count
   * grows; at MAXAVG every slot moves down by one and the sample takes the last slot.
   * The value returned is the mean of the window afterwards.
   */
  function Insert(slots: seq<real>, count: nat, val: real): (r: Insertion)
    requires |slots| == MAXAVG
    ensures |r.slots| == MAXAVG
    ensures count <= MAXAVG ==> 0 < r.count <= MAXAVG
  {
    if count < MAXAVG then
      var s := slots[count := val];
      Insertion(s, count + 1, Mean(s[..count + 1]))
    else
      var s := slots[1..] + [val];
      Insertion(s, count, Mean(s))
  }

  /**
   * After an insertion the window is the last MAXAVG of (old window + [val]) and the
   * value returned is its mean: never over more than MAXAVG samples, nor over none.
   */
  lemma InsertKeepsLastFive(slots: seq<real>, count: nat, val: real)
    requires |slots| == MAXAVG
    ensures var r := Insert(slots, count, val);
      && 0 < |Window(r.slots, r.count)|
      && Window(r.slots, r.count) == LastFive(Window(slots, count) + [val])
      && r.mean == Mean(Window(r.slots, r.count))
  {
    if count < MAXAVG {
      var s := slots[count := val];
      assert Window(s, count + 1) == Window(slots, count) + [val];
    } else {
      var s := slots[1..] + [val];
      assert Window(slots, count) + [val] == slots + [val];
      assert Window(s, count) == s;
    }
  }

  /** Samples fed one by one, oldest first, into a buffer. */
  function Feed(slots: seq<real>, count: nat, xs: seq<real>): (r: Insertion)
    requires |slots| == MAXAVG
    ensures |r.slots| == MAXAVG
    decreases |xs|
  {
    if xs == [] then Insertion(slots, count, 0.0)
    else
      var prev := Feed(slots, count, xs[..|xs| - 1]);
      Insert(prev.slots, prev.count, xs[|xs| - 1])
  }

  /** Keeping the last five, then appending and keeping the last five again, loses nothing. */
  lemma LastFiveAppend(s: seq<real>, x: real)
    ensures LastFive(LastFive(s) + [x]) == LastFive(s + [x])
  {
    if |s| >= MAXAVG {
      var n := |s|;
      assert LastFive(s) + [x] == s[n - MAXAVG..] + [x];
      assert (s[n - MAXAVG..] + [x])[1..] == s[n - MAXAVG + 1..] + [x];
      assert (s + [x])[n + 1 - MAXAVG..] == s[n - MAXAVG + 1..] + [x];
    }
  }

  /**
   * Whatever stale values an emptied buffer holds, after feeding xs its window is
   * exactly the last MAXAVG samples of xs, and the count is the number fed, capped.
   */
  lemma {:induction false} FeedKeepsLastFive(slots: seq<real>, xs: seq<real>)
    requires |slots| == MAXAVG
    ensures Feed(slots, 0, xs).count == Min(|xs|, MAXAVG)
    ensures Window(Feed(slots, 0, xs).slots, Feed(slots, 0, xs).count) == LastFive(xs)
    decreases |xs|
  {
    if xs != [] {
      var init := xs[..|xs| - 1];
      FeedKeepsLastFive(slots, init);
      var prev := Feed(slots, 0, init);
      InsertKeepsLastFive(prev.slots, prev.count, xs[|xs| - 1]);
      LastFiveAppend(init, xs[|xs| - 1]);
      assert init + [xs[|xs| - 1]] == xs;
    }
  }

  /** The mean after k < MAXAVG samples is their plain mean; later, that of the newest five. */
  lemma FeedMean(slots: seq<real>, xs: seq<real>)
    requires |slots| == MAXAVG && |xs| > 0
    ensures Feed(slots, 0, xs).mean == Mean(LastFive(xs))
    ensures |xs| <= MAXAVG ==> Feed(slots, 0, xs).mean == Sum(xs) / |xs| as real
    ensures |xs| > MAXAVG ==> Feed(slots, 0, xs).mean == Sum(xs[|xs| - MAXAVG..]) / MAXAVG as real
  {
    var init := xs[..|xs| - 1];
    FeedKeepsLastFive(slots, init);
    FeedKeepsLastFive(slots, xs);
    var prev := Feed(slots, 0, init);
    InsertKeepsLastFive(prev.slots, prev.count, xs[|xs| - 1]);
  }

  /** A sum of n samples that all lie in [lo, hi] lies in [n * lo, n * hi]. */
  lemma {:induction false} SumBounds(s: seq<real>, lo: real, hi: real)
    requires forall k :: 0 <= k < |s| ==> lo <= s[k] <= hi
    ensures |s| as real * lo <= Sum(s) <= |s| as real * hi
    decreases |s|
  {
    if s != [] {
      SumBounds(s[..|s| - 1], lo, hi);
    }
  }

  /** The mean of samples in [lo, hi] lies in [lo, hi]. */
  lemma MeanBounds(s: seq<real>, lo: real, hi: real)
    requires |s| > 0
    requires forall k :: 0 <= k < |s| ==> lo <= s[k] <= hi
    ensures lo <= Mean(s) <= hi
  {
    SumBounds(s, lo, hi);
    var n := |s| as real;
    assert Mean(s) * n == Sum(s);
  }

  /** The mean of equal samples is that sample. */
  lemma MeanOfConstant(s: seq<real>, x: real)
    requires |s| > 0 && forall k :: 0 <= k < |s| ==> s[k] == x
    ensures Mean(s) == x
  {
    MeanBounds(s, x, x);
  }
}
