/** Class boundaries for the binned colour schemes: bin edges spread by
    standard deviations around the raster mean (the per-property loop), and
    the fixed edge and colour lists of the uploading PH script. The lookup of
    a value in these bins is matplotlib's and is not part of this model. */
module Classification {
  import opened Numbers

  /** `range(math.ceil(-step / 2), math.ceil(step / 2))`, as its two bounds. */
  function FirstOffset(step: int): int {
    Ceil(-(step as real) / 2.0)
  }

  function EndOffset(step: int): int {
    Ceil((step as real) / 2.0)
  }

  /** The two ceilings are `step` apart, so the range has `step` members. */
  lemma OffsetCount(step: int)
    ensures EndOffset(step) - FirstOffset(step) == step
    ensures step > 0 ==> FirstOffset(step) == -(step / 2)
  {
    var lo, hi := FirstOffset(step), EndOffset(step);
    assert hi - lo < step + 1 && hi - lo > step - 1;
    if step > 0 {
      var h := step / 2;
      assert -(step as real) / 2.0 == -(h as real) - ((step % 2) as real) / 2.0;
    }
  }

  /** `[mean + i * std for i in range(math.ceil(-step / 2), math.ceil(step / 2))]`. */
  function StatisticalEdges(mean: real, std: real, step: int): (edges: seq<real>)
    ensures |edges| == if step > 0 then step else 0
  {
    OffsetCount(step);
    var lo := FirstOffset(step);
    var n := if step > 0 then step else 0;
    seq(n, k requires 0 <= k < n => mean + ((lo + k) as real) * std)
  }

  lemma OneMoreStd(a: int, std: real)
    ensures ((a + 1) as real) * std - (a as real) * std == std
  {
  }

  /** Consecutive edges are one standard deviation apart. */
  lemma EdgesSpacing(mean: real, std: real, step: int, k: int)
    requires 0 < k < |StatisticalEdges(mean, std, step)|
    ensures StatisticalEdges(mean, std, step)[k] - StatisticalEdges(mean, std, step)[k - 1] == std
  {
    OneMoreStd(FirstOffset(step) + k - 1, std);
  }

  /** With a positive standard deviation the edges strictly increase. */
  lemma {:induction false} EdgesIncreasing(mean: real, std: real, step: int, i: int, j: int)
    requires std > 0.0
    requires 0 <= i < j < |StatisticalEdges(mean, std, step)|
    ensures StatisticalEdges(mean, std, step)[i] < StatisticalEdges(mean, std, step)[j]
    decreases j - i
  {
    EdgesSpacing(mean, std, step, j);
    if i < j - 1 {
      EdgesIncreasing(mean, std, step, i, j - 1);
    }
  }

  /** The mean itself is an edge, at index `step // 2`; for an odd step the
      edges are symmetric about it. */
  lemma EdgesAroundMean(mean: real, std: real, step: int, k: int)
    requires step > 0
    requires 0 <= k < step
    ensures StatisticalEdges(mean, std, step)[step / 2] == mean
    ensures step % 2 == 1 ==>
      StatisticalEdges(mean, std, step)[k] + StatisticalEdges(mean, std, step)[step - 1 - k] == 2.0 * mean
  {
    OffsetCount(step);
    var m := step / 2;
    var e := StatisticalEdges(mean, std, step);
    assert e[m] == mean + (0 as real) * std;
    if step % 2 == 1 {
      var a := (k - m) as real;
      assert e[k] == mean + a * std;
      assert e[step - 1 - k] == mean + (-a) * std;
    }
  }

  /** The fixed class edges of the uploading PH script. */
  const CommitEdges: seq<real> := [2.301, 4.393, 5.241, 6.090, 6.939, 7.787, 8.636, 10.6]

  /** Its colours, low to high, as hexadecimal RGB strings. */
  const CommitColours: seq<string> :=
    ["#5f87c1", "#98adc6", "#cad5ca", "#f9fecc", "#f9c697", "#f08a64", "#e04535"]

  predicate IsHexDigit(c: char) {
    '0' <= c <= '9' || 'a' <= c <= 'f' || 'A' <= c <= 'F'
  }

  predicate IsHexColour(s: string) {
    |s| == 7 && s[0] == '#' && forall i :: 1 <= i < 7 ==> IsHexDigit(s[i])
  }

  predicate StrictlySorted(xs: seq<real>) {
    forall i, j :: 0 <= i < j < |xs| ==> xs[i] < xs[j]
  }

  /** Eight strictly increasing edges delimit seven classes, one colour each,
      and every colour is a well-formed, distinct hexadecimal colour. */
  lemma CommitConfiguration()
    ensures |CommitEdges| == 8 && StrictlySorted(CommitEdges)
    ensures |CommitColours| == |CommitEdges| - 1
    ensures forall i :: 0 <= i < |CommitColours| ==> IsHexColour(CommitColours[i])
    ensures forall i, j :: 0 <= i < j < |CommitColours| ==> CommitColours[i] != CommitColours[j]
  {
    var e := CommitEdges;
    assert forall i :: 0 < i < |e| ==> e[i - 1] < e[i];
  }
}
