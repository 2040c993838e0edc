/** Colour-bar legends: tick positions from `np.linspace` and their text
    labels. The per-property loop labels every tick with `str(int(t))`; the PH
    scripts label six ticks from the data minimum to 14, the last one with a
    fixed text. Drawing and saving the figure is not part of this model. */
module Legend {
  import opened Numbers

  /** `np.linspace(start, stop, num)` with its endpoint; numpy rejects a
      negative count. */
  function Linspace(start: real, stop: real, num: int): (r: Result<seq<real>, string>)
    ensures r.Err? <==> num < 0
    ensures r.Ok? ==> |r.value| == num
  {
    if num < 0 then Err("Number of samples must be non-negative")
    else if num == 1 then Ok([start])
    else
      var step := (stop - start) / ((num - 1) as real);
      Ok(seq(num, i requires 0 <= i < num => start + (i as real) * step))
  }

  lemma SpanOfSteps(start: real, stop: real, n: nat)
    requires n >= 1
    ensures start + (n as real) * ((stop - start) / (n as real)) == stop
  {
  }

  lemma NextTick(start: real, d: real, i: int)
    ensures (start + (i as real) * d) - (start + ((i - 1) as real) * d) == d
  {
    var a := (i - 1) as real;
    assert (a + 1.0) * d == a * d + d;
  }

  /** The ticks run from start to stop in equal steps. */
  lemma LinspaceShape(start: real, stop: real, num: int)
    requires num >= 1
    ensures Linspace(start, stop, num).value[0] == start
    ensures num > 1 ==> Linspace(start, stop, num).value[num - 1] == stop
    ensures forall i :: 0 < i < num ==>
      Linspace(start, stop, num).value[i] - Linspace(start, stop, num).value[i - 1] == (stop - start) / ((num - 1) as real)
  {
    var t := Linspace(start, stop, num).value;
    if num > 1 {
      var d := (stop - start) / ((num - 1) as real);
      assert t[0] == start + (0 as real) * d;
      SpanOfSteps(start, stop, num - 1);
      forall i | 0 < i < num
        ensures t[i] - t[i - 1] == d
      {
        NextTick(start, d, i);
      }
    }
  }

  /** Ticks over an increasing interval strictly increase. */
  lemma LinspaceIncreasing(start: real, stop: real, num: int, i: int, j: int)
    requires start < stop
    requires 0 <= i < j < num
    ensures Linspace(start, stop, num).value[i] < Linspace(start, stop, num).value[j]
  {
    var d := (stop - start) / ((num - 1) as real);
    var t := Linspace(start, stop, num).value;
    assert d > 0.0;
    assert t[j] - t[i] == ((j - i) as real) * d;
  }

  /** `[str(int(t)) for t in ticks]`. */
  function IntLabels(ticks: seq<real>): (labels: seq<string>)
    ensures |labels| == |ticks|
  {
    seq(|ticks|, i requires 0 <= i < |ticks| => IntToString(Trunc(ticks[i])))
  }

  /** Every label reads back as its tick truncated toward zero, so ticks with
      different integer parts get different labels. */
  lemma IntLabelsRead(ticks: seq<real>, i: int, j: int)
    requires 0 <= i < |ticks| && 0 <= j < |ticks|
    ensures ParseInt(IntLabels(ticks)[i]) == Trunc(ticks[i])
    ensures IntLabels(ticks)[i] == IntLabels(ticks)[j] <==> Trunc(ticks[i]) == Trunc(ticks[j])
  {
    IntRoundTrip(Trunc(ticks[i]));
    IntToStringInjective(Trunc(ticks[i]), Trunc(ticks[j]));
  }

  datatype Bar = Bar(ticks: seq<real>, labels: seq<string>)

  /** The per-property legend: `step + 1` ticks from the data minimum to the
      data maximum, each labelled with its integer part. */
  function LoopLegend(dataMin: real, dataMax: real, step: int): (r: Result<Bar, string>)
    ensures r.Err? <==> step < -1
    ensures r.Ok? ==> |r.value.ticks| == step + 1 && |r.value.labels| == |r.value.ticks|
  {
    match Linspace(dataMin, dataMax, step + 1)
    case Err(e) => Err(e)
    case Ok(ticks) => Ok(Bar(ticks, IntLabels(ticks)))
  }

  /** With a non-negative step the legend starts at the minimum, ends at the
      maximum, is evenly spaced, and every label reads back as its tick's
      integer part. */
  lemma LoopLegendShape(dataMin: real, dataMax: real, step: int, i: int)
    requires step >= 1 && 0 <= i <= step
    ensures LoopLegend(dataMin, dataMax, step).Ok?
    ensures LoopLegend(dataMin, dataMax, step).value.ticks[0] == dataMin
    ensures LoopLegend(dataMin, dataMax, step).value.ticks[step] == dataMax
    ensures 0 < i ==> LoopLegend(dataMin, dataMax, step).value.ticks[i] - LoopLegend(dataMin, dataMax, step).value.ticks[i - 1]
                      == (dataMax - dataMin) / (step as real)
    ensures ParseInt(LoopLegend(dataMin, dataMax, step).value.labels[i]) == Trunc(LoopLegend(dataMin, dataMax, step).value.ticks[i])
  {
    LinspaceShape(dataMin, dataMax, step + 1);
    IntLabelsRead(Linspace(dataMin, dataMax, step + 1).value, i, i);
  }

  /** The PH legends' upper tick. */
  const PhTop: real := 14.0

  const CommitLastLabel: string := "335"

  /** `np.linspace(data_min, 14, 6)` labelled `[str(int(t)) for t in ticks[:-1]] + [last]`,
      where the last label is ">14" in tile_generation.py and the batch script. */
  function CappedLegend(dataMin: real, last: string): (b: Bar)
    ensures |b.ticks| == 6 && |b.labels| == 6
    ensures b.ticks[0] == dataMin && b.ticks[5] == PhTop && b.labels[5] == last
  {
    LinspaceShape(dataMin, PhTop, 6);
    var ticks := Linspace(dataMin, PhTop, 6).value;
    Bar(ticks, IntLabels(ticks[..5]) + [last])
  }

  /** Six evenly spaced ticks from the data minimum to 14; the first five
      labels read back as their ticks' integer parts and the last is the
      fixed text. */
  lemma CappedLegendShape(dataMin: real, last: string, i: int)
    requires 0 <= i < 5
    ensures CappedLegend(dataMin, last).ticks[0] == dataMin
    ensures CappedLegend(dataMin, last).ticks[5] == PhTop
    ensures CappedLegend(dataMin, last).ticks[i + 1] - CappedLegend(dataMin, last).ticks[i] == (PhTop - dataMin) / 5.0
    ensures ParseInt(CappedLegend(dataMin, last).labels[i]) == Trunc(CappedLegend(dataMin, last).ticks[i])
    ensures CappedLegend(dataMin, last).labels[5] == last
  {
    var ticks := Linspace(dataMin, PhTop, 6).value;
    LinspaceShape(dataMin, PhTop, 6);
    IntLabelsRead(ticks[..5], i, i);
  }

  /** The uploading PH script's legend as written: its colour scale runs up to
      335, but its last tick sits at 14 and carries the text "335", which is
      not the integer part of the tick it labels. */
  lemma CommitLegendMislabels(dataMin: real)
    ensures CappedLegend(dataMin, CommitLastLabel).ticks[5] == 14.0
    ensures CappedLegend(dataMin, CommitLastLabel).labels[5] == "335"
    ensures ParseInt(CappedLegend(dataMin, CommitLastLabel).labels[5]) != Trunc(CappedLegend(dataMin, CommitLastLabel).ticks[5])
  {
    LinspaceShape(dataMin, PhTop, 6);
    assert ParseInt("335") == 335 by {
      IntRoundTrip(335);
      assert IntToString(335) == "335";
    }
  }

  /** The upper end of the uploading PH script's colour scale. */
  const CommitTop: real := 335.0

  /** The uploading PH script's legend with the ticks spanning its colour scale,
      from the data minimum to 335. */
  function CommitLegend(dataMin: real): (b: Bar)
    ensures |b.ticks| == 6 && |b.labels| == 6
    ensures b.ticks[0] == dataMin && b.ticks[5] == CommitTop && b.labels[5] == CommitLastLabel
  {
    LinspaceShape(dataMin, CommitTop, 6);
    var ticks := Linspace(dataMin, CommitTop, 6).value;
    Bar(ticks, IntLabels(ticks[..5]) + [CommitLastLabel])
  }

  /** Every label of the corrected legend, the last included, reads back as
      the integer part of the tick it labels, and the ticks span the whole
      colour scale. */
  lemma CommitLegendLabelsTicks(dataMin: real, i: int)
    requires 0 <= i < 6
    ensures CommitLegend(dataMin).ticks[0] == dataMin
    ensures CommitLegend(dataMin).ticks[5] == CommitTop
    ensures ParseInt(CommitLegend(dataMin).labels[i]) == Trunc(CommitLegend(dataMin).ticks[i])
  {
    var ticks := Linspace(dataMin, CommitTop, 6).value;
    LinspaceShape(dataMin, CommitTop, 6);
    if i < 5 {
      IntLabelsRead(ticks[..5], i, i);
    } else {
      IntRoundTrip(335);
      assert IntToString(335) == "335";
    }
  }
}
