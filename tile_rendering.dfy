/** Per-tile post-processing of the resampled 256 x 256 sample buffer: the
    empty-tile test, clipping at a ceiling, normalisation into [0, 1], the
    colour lookup (an uninterpreted function), and the transparency masks that
    the scripts write into the RGBA buffer in place. The buffer is flattened
    row-major; every operation here is element-wise, so its shape does not matter. */
module TileRendering {
  import opened Numbers

  type Byte = b: int | 0 <= b < 256

  datatype Rgba = Rgba(red: Byte, green: Byte, blue: Byte, alpha: Byte)

  const Transparent: Rgba := Rgba(0, 0, 0, 0)

  /** A normalised sample: a number, or the NaN numpy produces for 0 / 0. */
  datatype Level = Finite(t: real) | NaN

  /** How a clipped sample becomes a colour.
      Binned: `cmap(norm(v))` with the classification of the loop script
      (a BoundaryNorm over bin edges and a ListedColormap), left uninterpreted.
      Scaled: min-max normalisation against dataMin and the ceiling, then a
      colormap lookup, itself uninterpreted. */
  datatype Scheme =
    | Binned(classify: real -> Rgba)
    | Scaled(dataMin: real, colormap: Level -> Rgba)

  /** What one script does to every tile. */
  datatype TilePolicy = TilePolicy(
    ceiling: real,
    scheme: Scheme,
    skipEmpty: bool,
    hideAtOrBelow: Option<real>)

  /** `np.clip(v, None, ceiling)`: an upper bound only. */
  function Clip(v: real, ceiling: real): (r: real)
    ensures r <= ceiling
    ensures r == v <==> v <= ceiling
    ensures v > ceiling ==> r == ceiling
  {
    if v > ceiling then ceiling else v
  }

  /** `np.clip(r, 0, 1)`. */
  function UnitClip(r: real): (u: real)
    ensures 0.0 <= u <= 1.0
    ensures 0.0 <= r <= 1.0 ==> u == r
    ensures r < 0.0 ==> u == 0.0
    ensures r > 1.0 ==> u == 1.0
  {
    if r < 0.0 then 0.0 else if r > 1.0 then 1.0 else r
  }

  /** `np.clip((np.clip(v, None, ceiling) - dataMin) / (ceiling - dataMin), 0, 1)`
      in exact arithmetic. When dataMin equals the ceiling, numpy divides by zero:
      a negative numerator gives -inf, which the clip turns into 0, and a zero
      numerator gives NaN, which the clip keeps. */
  function Normalise(v: real, dataMin: real, ceiling: real): (l: Level)
    ensures l.Finite? ==> 0.0 <= l.t <= 1.0
    ensures l.NaN? <==> dataMin == ceiling && v >= ceiling
  {
    var c := Clip(v, ceiling);
    if ceiling == dataMin then
      (if c < ceiling then Finite(0.0) else NaN)
    else
      Finite(UnitClip((c - dataMin) / (ceiling - dataMin)))
  }

  lemma QuotientMonotone(a: real, b: real, d: real)
    requires a <= b && d > 0.0
    ensures a / d <= b / d
  {
    assert b / d - a / d == (b - a) / d;
  }

  /** Dividing by a negative number no larger than the dividend's magnitude. */
  lemma QuotientAtLeastOne(a: real, d: real)
    requires a <= d < 0.0
    ensures a / d >= 1.0
  {
    QuotientMonotone(-d, -a, -d);
    assert (-a) / (-d) == a / d;
  }

  /** Normalisation is non-decreasing in the sample value. */
  lemma NormaliseMonotone(v: real, w: real, dataMin: real, ceiling: real)
    requires v <= w
    requires Normalise(v, dataMin, ceiling).Finite? && Normalise(w, dataMin, ceiling).Finite?
    ensures Normalise(v, dataMin, ceiling).t <= Normalise(w, dataMin, ceiling).t
  {
    var cv, cw := Clip(v, ceiling), Clip(w, ceiling);
    if dataMin < ceiling {
      QuotientMonotone(cv - dataMin, cw - dataMin, ceiling - dataMin);
    } else if dataMin > ceiling {
      QuotientAtLeastOne(cv - dataMin, ceiling - dataMin);
      QuotientAtLeastOne(cw - dataMin, ceiling - dataMin);
    }
  }

  /** With dataMin below the ceiling, samples at or above the ceiling map to 1
      and samples at or below dataMin map to 0. */
  lemma NormaliseSaturates(v: real, dataMin: real, ceiling: real)
    ensures dataMin < ceiling && v >= ceiling ==> Normalise(v, dataMin, ceiling) == Finite(1.0)
    ensures dataMin < ceiling && v <= dataMin ==> Normalise(v, dataMin, ceiling) == Finite(0.0)
  {
    var d := ceiling - dataMin;
    if dataMin < ceiling && v >= ceiling {
      assert Clip(v, ceiling) == ceiling;
      assert (ceiling - dataMin) / d == 1.0;
    }
    if dataMin < ceiling && v <= dataMin {
      assert Clip(v, ceiling) == v;
      QuotientMonotone(v - dataMin, 0.0, d);
      assert (v - dataMin) / d <= 0.0;
    }
  }

  /** The colour a sample gets before any transparency mask. Samples at or
      above the ceiling all get the top colour of the scale. */
  function Colour(p: TilePolicy, v: real): (c: Rgba)
    ensures p.scheme.Binned? && v >= p.ceiling ==> c == p.scheme.classify(p.ceiling)
    ensures p.scheme.Scaled? && p.scheme.dataMin < p.ceiling && v >= p.ceiling ==> c == p.scheme.colormap(Finite(1.0))
    ensures p.scheme.Scaled? && p.scheme.dataMin < p.ceiling && v <= p.scheme.dataMin ==> c == p.scheme.colormap(Finite(0.0))
  {
    match p.scheme
    case Binned(classify) => classify(Clip(v, p.ceiling))
    case Scaled(dataMin, colormap) =>
      NormaliseSaturates(v, dataMin, p.ceiling);
      colormap(Normalise(v, dataMin, p.ceiling))
  }

  /** The pixel is made transparent: its raw sample equals the raster's no-data
      value, or the policy hides low values and the raw sample is at or below
      the threshold (checked even when the raster has no no-data value). */
  predicate Hidden(p: TilePolicy, nodata: Option<real>, v: real)
    ensures p.hideAtOrBelow.None? ==> (Hidden(p, nodata, v) <==> nodata == Some(v))
  {
    || nodata == Some(v)
    || (p.hideAtOrBelow.Some? && v <= p.hideAtOrBelow.value)
  }

  /** A hidden pixel is transparent; any other pixel has its sample's colour. */
  function Pixel(p: TilePolicy, nodata: Option<real>, v: real): (c: Rgba)
    ensures Hidden(p, nodata, v) ==> c == Transparent
    ensures c != Transparent ==> c == Colour(p, v)
  {
    if Hidden(p, nodata, v) then Transparent else Colour(p, v)
  }

  /** The finished tile image, pixel by pixel. */
  function Render(p: TilePolicy, nodata: Option<real>, samples: seq<real>): (image: seq<Rgba>)
    ensures |image| == |samples|
  {
    seq(|samples|, i requires 0 <= i < |samples| => Pixel(p, nodata, samples[i]))
  }

  /** `np.all(tile_array == src.nodata)`: every sample equals the no-data value.
      With no no-data value the comparison is false everywhere, so only an empty
      buffer counts as empty. */
  predicate IsEmptyTile(samples: seq<real>, nodata: Option<real>)
    ensures IsEmptyTile(samples, nodata) && |samples| > 0 ==> nodata == Some(samples[0])
  {
    forall i :: 0 <= i < |samples| ==> nodata == Some(samples[i])
  }

  /** The test reduces over the buffer one sample at a time, as `np.all` does:
      appending a sample keeps a buffer empty exactly when that sample is the
      no-data value. With no no-data value a non-empty buffer is never empty. */
  lemma EmptyTileExactly(samples: seq<real>, w: real, nodata: Option<real>)
    ensures IsEmptyTile(samples + [w], nodata) <==> IsEmptyTile(samples, nodata) && nodata == Some(w)
    ensures nodata.None? && |samples| > 0 ==> !IsEmptyTile(samples, nodata)
  {
    var s := samples + [w];
    assert s[|samples|] == w;
    assert forall i :: 0 <= i < |samples| ==> s[i] == samples[i];
  }

  predicate IsBlank(image: seq<Rgba>) {
    forall k :: 0 <= k < |image| ==> image[k] == Transparent
  }

  /** Skipping an empty tile loses nothing: every pixel of its image would
      have been transparent. */
  lemma EmptyTileIsBlank(p: TilePolicy, nodata: Option<real>, samples: seq<real>)
    ensures IsEmptyTile(samples, nodata) ==> IsBlank(Render(p, nodata, samples))
  {
  }

  /** `rgba[mask] = [0, 0, 0, 0]`: clears the masked pixels in place. */
  method ClearWhere(rgba: array<Rgba>, mask: seq<bool>)
    requires |mask| == rgba.Length
    modifies rgba
    ensures forall i :: 0 <= i < rgba.Length ==>
      rgba[i] == if mask[i] then Transparent else old(rgba[i])
  {
    forall i | 0 <= i < rgba.Length && mask[i] {
      rgba[i] := Transparent;
    }
  }

  /** Colours a sample buffer, then clears the no-data pixels and, when the
      policy says so, the low-valued pixels, in place in the RGBA buffer. */
  method RenderTile(p: TilePolicy, nodata: Option<real>, samples: seq<real>)
    returns (image: seq<Rgba>)
    ensures image == Render(p, nodata, samples)
  {
    var rgba := new Rgba[|samples|](i requires 0 <= i < |samples| => Colour(p, samples[i]));
    if nodata.Some? {
      ClearWhere(rgba, seq(|samples|, i requires 0 <= i < |samples| => samples[i] == nodata.value));
    }
    if p.hideAtOrBelow.Some? {
      ClearWhere(rgba, seq(|samples|, i requires 0 <= i < |samples| => samples[i] <= p.hideAtOrBelow.value));
    }
    image := rgba[..];
  }

  /** The masks: a hidden pixel is transparent, and every other pixel keeps the
      colour of its (clipped) sample. */
  lemma RenderMasks(p: TilePolicy, nodata: Option<real>, samples: seq<real>, i: int)
    requires 0 <= i < |samples|
    ensures |Render(p, nodata, samples)| == |samples|
    ensures Hidden(p, nodata, samples[i]) ==> Render(p, nodata, samples)[i] == Transparent
    ensures !Hidden(p, nodata, samples[i]) ==> Render(p, nodata, samples)[i] == Colour(p, samples[i])
  {
  }
}
