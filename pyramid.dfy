/** The tile pyramid driver shared by the four scripts: for every zoom level
    from 9 to 18, every column and then every row of that level's tile range,
    read the raster under the tile, skip it when the script skips empty tiles,
    render it and write it to `<tiles>/<z>/<x>/<y>.png`, and (in the uploading
    scripts) to the same relative path under a repository directory. Raster
    reads are a parameter; files and uploads are the outputs returned in order. */
module Pyramid {
  import opened Numbers
  import opened WebMercator
  import opened TileRendering

  /** `range(9, 19)`. */
  const MinZoom: nat := 9
  const MaxZoom: nat := 18

  datatype Tile = Tile(z: nat, x: int, y: int)

  /** The windowed, bilinearly resampled read of band 1 under the given bounds:
      256 x 256 samples, flattened row-major. */
  type Sampler = Bounds -> seq<real>

  /** One run of a script over one raster. */
  datatype Pipeline = Pipeline(
    clampRange: bool,
    policy: TilePolicy,
    tilesDir: string,
    remoteDir: Option<string>)

  /** A tile written: its address, the local file, the image, and the path it
      is uploaded to, if the script uploads. */
  datatype Output = Output(tile: Tile, localPath: string, image: seq<Rgba>, remotePath: Option<string>)

  /** `os.path.join` on the Windows machine the scripts' paths are written for. */
  const LocalSep: char := '\\'

  /** `/` in the repository paths. */
  const RemoteSep: char := '/'

  /** `<z>/<x>/<y>.png` with the given separator. */
  function RelativeTilePath(sep: char, t: Tile): string {
    IntToString(t.z) + [sep] + IntToString(t.x) + [sep] + IntToString(t.y) + ".png"
  }

  function TilePath(root: string, sep: char, t: Tile): string {
    root + [sep] + RelativeTilePath(sep, t)
  }

  /** The path lies under the root, one separator down, and names a PNG file. */
  lemma TilePathShape(root: string, sep: char, t: Tile)
    ensures var p := TilePath(root, sep, t);
      |p| > |root| + 4 && p[..|root|] == root && p[|root|] == sep && p[|p| - 4..] == ".png"
  {
  }

  /** Tile ranges are clamped to the grid in the loop script only. */
  function RangeAt(clamp: bool, b: Bounds, z: nat): TileRange {
    if clamp then ClampedTileRangeOf(b, z) else TileRangeOf(b, z)
  }

  predicate InRange(r: TileRange, t: Tile) {
    r.xMin <= t.x <= r.xMax && r.yMin <= t.y <= r.yMax
  }

  /** `for y in range(yLo, yHi + 1)` at column x of zoom z. */
  function ColumnVisits(z: nat, x: int, yLo: int, yHi: int): (ts: seq<Tile>)
    ensures |ts| == if yHi < yLo then 0 else yHi - yLo + 1
    ensures forall i :: 0 <= i < |ts| ==> ts[i].z == z && ts[i].x == x
    decreases yHi - yLo + 1
  {
    if yHi < yLo then [] else ColumnVisits(z, x, yLo, yHi - 1) + [Tile(z, x, yHi)]
  }

  /** `for x in range(r.xMin, xHi + 1)`, each column visited in full. */
  function LevelVisits(z: nat, r: TileRange, xHi: int): (ts: seq<Tile>)
    ensures |ts| == (if xHi < r.xMin then 0 else xHi - r.xMin + 1) * (if r.yMax < r.yMin then 0 else r.yMax - r.yMin + 1)
    ensures forall i :: 0 <= i < |ts| ==> ts[i].z == z
    decreases xHi - r.xMin + 1
  {
    if xHi < r.xMin then [] else LevelVisits(z, r, xHi - 1) + ColumnVisits(z, xHi, r.yMin, r.yMax)
  }

  /** Every tile the driver visits at zoom levels zLo to zHi, in visiting order. */
  function Visits(clamp: bool, b: Bounds, zLo: nat, zHi: int): (ts: seq<Tile>)
    ensures forall i :: 0 <= i < |ts| ==> zLo <= ts[i].z <= zHi
    decreases zHi - zLo + 1
  {
    if zHi < zLo then []
    else
      var r := RangeAt(clamp, b, zHi);
      Visits(clamp, b, zLo, zHi - 1) + LevelVisits(zHi, r, r.xMax)
  }

  /** Visiting order: by zoom, then column, then row. */
  predicate Before(a: Tile, b: Tile) {
    a.z < b.z || (a.z == b.z && (a.x < b.x || (a.x == b.x && a.y < b.y)))
  }

  predicate StrictlyIncreasing(ts: seq<Tile>) {
    forall i, j :: 0 <= i < j < |ts| ==> Before(ts[i], ts[j])
  }

  lemma ConcatIncreasing(a: seq<Tile>, b: seq<Tile>)
    requires StrictlyIncreasing(a) && StrictlyIncreasing(b)
    requires forall u, v :: u in a && v in b ==> Before(u, v)
    ensures StrictlyIncreasing(a + b)
  {
    var c := a + b;
    forall i, j | 0 <= i < j < |c|
      ensures Before(c[i], c[j])
    {
      if j < |a| {
        assert c[i] == a[i] && c[j] == a[j];
      } else if i >= |a| {
        assert c[i] == b[i - |a|] && c[j] == b[j - |a|];
      } else {
        assert c[i] in a && c[j] in b;
      }
    }
  }

  lemma {:induction false} InColumnVisits(z: nat, x: int, yLo: int, yHi: int, t: Tile)
    ensures t in ColumnVisits(z, x, yLo, yHi) <==> t.z == z && t.x == x && yLo <= t.y <= yHi
    decreases yHi - yLo + 1
  {
    if yHi >= yLo {
      InColumnVisits(z, x, yLo, yHi - 1, t);
    }
  }

  lemma {:induction false} ColumnVisitsIncreasing(z: nat, x: int, yLo: int, yHi: int)
    ensures StrictlyIncreasing(ColumnVisits(z, x, yLo, yHi))
    decreases yHi - yLo + 1
  {
    if yHi >= yLo {
      ColumnVisitsIncreasing(z, x, yLo, yHi - 1);
      forall u | u in ColumnVisits(z, x, yLo, yHi - 1)
        ensures Before(u, Tile(z, x, yHi))
      {
        InColumnVisits(z, x, yLo, yHi - 1, u);
      }
      ConcatIncreasing(ColumnVisits(z, x, yLo, yHi - 1), [Tile(z, x, yHi)]);
    }
  }

  lemma {:induction false} InLevelVisits(z: nat, r: TileRange, xHi: int, t: Tile)
    ensures t in LevelVisits(z, r, xHi) <==> t.z == z && t.x <= xHi && InRange(r.(xMax := xHi), t)
    decreases xHi - r.xMin + 1
  {
    if xHi >= r.xMin {
      InLevelVisits(z, r, xHi - 1, t);
      InColumnVisits(z, xHi, r.yMin, r.yMax, t);
    }
  }

  lemma {:induction false} LevelVisitsIncreasing(z: nat, r: TileRange, xHi: int)
    ensures StrictlyIncreasing(LevelVisits(z, r, xHi))
    decreases xHi - r.xMin + 1
  {
    if xHi >= r.xMin {
      LevelVisitsIncreasing(z, r, xHi - 1);
      ColumnVisitsIncreasing(z, xHi, r.yMin, r.yMax);
      forall u, v | u in LevelVisits(z, r, xHi - 1) && v in ColumnVisits(z, xHi, r.yMin, r.yMax)
        ensures Before(u, v)
      {
        InLevelVisits(z, r, xHi - 1, u);
        InColumnVisits(z, xHi, r.yMin, r.yMax, v);
      }
      ConcatIncreasing(LevelVisits(z, r, xHi - 1), ColumnVisits(z, xHi, r.yMin, r.yMax));
    }
  }

  /** A tile is visited exactly when its zoom is in the loop's range and it lies
      in that level's tile range. */
  lemma {:induction false} InVisits(clamp: bool, b: Bounds, zLo: nat, zHi: int, t: Tile)
    ensures t in Visits(clamp, b, zLo, zHi) <==> zLo <= t.z <= zHi && InRange(RangeAt(clamp, b, t.z), t)
    decreases zHi - zLo + 1
  {
    if zHi >= zLo {
      var r := RangeAt(clamp, b, zHi);
      InVisits(clamp, b, zLo, zHi - 1, t);
      InLevelVisits(zHi, r, r.xMax, t);
    }
  }

  /** Tiles are visited in increasing (zoom, column, row) order, so none twice. */
  lemma {:induction false} VisitsIncreasing(clamp: bool, b: Bounds, zLo: nat, zHi: int)
    ensures StrictlyIncreasing(Visits(clamp, b, zLo, zHi))
    decreases zHi - zLo + 1
  {
    if zHi >= zLo {
      var r := RangeAt(clamp, b, zHi);
      VisitsIncreasing(clamp, b, zLo, zHi - 1);
      LevelVisitsIncreasing(zHi, r, r.xMax);
      forall u, v | u in Visits(clamp, b, zLo, zHi - 1) && v in LevelVisits(zHi, r, r.xMax)
        ensures Before(u, v)
      {
        InVisits(clamp, b, zLo, zHi - 1, u);
        InLevelVisits(zHi, r, r.xMax, v);
      }
      ConcatIncreasing(Visits(clamp, b, zLo, zHi - 1), LevelVisits(zHi, r, r.xMax));
    }
  }

  /** With clamped ranges every visited tile is a valid XYZ address. */
  lemma ClampedVisitsInGrid(b: Bounds, t: Tile)
    ensures t in Visits(true, b, MinZoom, MaxZoom) ==>
      && MinZoom <= t.z <= MaxZoom
      && 0 <= t.x < Pow2(t.z) && 0 <= t.y < Pow2(t.z)
  {
    InVisits(true, b, MinZoom, MaxZoom, t);
  }

  /** The bounds of the tile read for a visit. */
  function TileArea(t: Tile): Bounds {
    TileBounds(t.x, t.y, t.z)
  }

  /** `if np.all(tile_array == src.nodata): continue`, in the script that has it.
      Only a tile whose every pixel would be transparent is skipped. */
  predicate Skipped(pl: Pipeline, nodata: Option<real>, read: Sampler, t: Tile)
    ensures Skipped(pl, nodata, read, t) ==> pl.policy.skipEmpty && IsBlank(Render(pl.policy, nodata, read(TileArea(t))))
  {
    pl.policy.skipEmpty && IsEmptyTile(read(TileArea(t)), nodata)
  }

  /** `os.path.join(tiles_dir, str(z), str(x), f"{y}.png")`. */
  function LocalPath(pl: Pipeline, t: Tile): string {
    TilePath(pl.tilesDir, LocalSep, t)
  }

  /** The repository path a tile is uploaded to, if the script uploads. */
  function RemotePath(pl: Pipeline, t: Tile): (p: Option<string>)
    ensures p.Some? <==> pl.remoteDir.Some?
  {
    match pl.remoteDir
    case None => None
    case Some(d) => Some(TilePath(d, RemoteSep, t))
  }

  /** What a visit writes. */
  function OutputFor(pl: Pipeline, nodata: Option<real>, read: Sampler, t: Tile): Output {
    Output(t, LocalPath(pl, t), Render(pl.policy, nodata, read(TileArea(t))), RemotePath(pl, t))
  }

  /** A visit writes its own tile's image, one pixel per sample read, to a PNG
      file under the tiles directory, and uploads it exactly when the script
      uploads. */
  lemma OutputOfVisit(pl: Pipeline, nodata: Option<real>, read: Sampler, t: Tile)
    ensures var o := OutputFor(pl, nodata, read, t);
      && o.tile == t
      && |o.image| == |read(TileArea(t))|
      && o.localPath[..|pl.tilesDir|] == pl.tilesDir
      && o.localPath[|o.localPath| - 4..] == ".png"
      && (o.remotePath.Some? <==> pl.remoteDir.Some?)
  {
    TilePathShape(pl.tilesDir, LocalSep, t);
  }

  /** The tiles written for a sequence of visits, in order. */
  function Produce(pl: Pipeline, nodata: Option<real>, read: Sampler, visits: seq<Tile>): (out: seq<Output>)
    ensures |out| <= |visits|
    ensures !pl.policy.skipEmpty ==> |out| == |visits|
  {
    if visits == [] then []
    else
      var t := visits[|visits| - 1];
      Produce(pl, nodata, read, visits[..|visits| - 1])
        + (if Skipped(pl, nodata, read, t) then [] else [OutputFor(pl, nodata, read, t)])
  }

  /** Producing is compositional over a split of the visits. */
  lemma {:induction false} ProduceAppend(pl: Pipeline, nodata: Option<real>, read: Sampler, a: seq<Tile>, b: seq<Tile>)
    ensures Produce(pl, nodata, read, a + b) == Produce(pl, nodata, read, a) + Produce(pl, nodata, read, b)
    decreases |b|
  {
    if b != [] {
      var b', t := b[..|b| - 1], b[|b| - 1];
      var tail := if Skipped(pl, nodata, read, t) then [] else [OutputFor(pl, nodata, read, t)];
      ProduceAppend(pl, nodata, read, a, b');
      assert (a + b)[..|a + b| - 1] == a + b' && (a + b)[|a + b| - 1] == t;
      assert Produce(pl, nodata, read, a + b) == Produce(pl, nodata, read, a + b') + tail;
      assert Produce(pl, nodata, read, b) == Produce(pl, nodata, read, b') + tail;
    } else {
      assert a + b == a;
    }
  }

  /** One visit of the innermost loop body: read, skip or render, and write. */
  method RenderVisit(pl: Pipeline, nodata: Option<real>, read: Sampler, t: Tile)
    returns (written: seq<Output>)
    ensures written == Produce(pl, nodata, read, [t])
    ensures written == if Skipped(pl, nodata, read, t) then [] else [OutputFor(pl, nodata, read, t)]
  {
    var samples := read(TileBounds(t.x, t.y, t.z));
    if pl.policy.skipEmpty && IsEmptyTile(samples, nodata) {
      written := [];
    } else {
      var image := RenderTile(pl.policy, nodata, samples);
      var remote := if pl.remoteDir.Some? then Some(TilePath(pl.remoteDir.value, RemoteSep, t)) else None;
      written := [Output(t, TilePath(pl.tilesDir, LocalSep, t), image, remote)];
    }
    assert [t][..0] == [];
  }

  /** `for y in range(y_min, y_max + 1)` at one column. */
  method RenderColumn(pl: Pipeline, nodata: Option<real>, read: Sampler, z: nat, x: int, r: TileRange)
    returns (written: seq<Output>)
    ensures written == Produce(pl, nodata, read, ColumnVisits(z, x, r.yMin, r.yMax))
  {
    written := [];
    var y := r.yMin;
    while y <= r.yMax
      invariant r.yMin <= y && (y <= r.yMax + 1 || y == r.yMin)
      invariant written == Produce(pl, nodata, read, ColumnVisits(z, x, r.yMin, y - 1))
    {
      var w := RenderVisit(pl, nodata, read, Tile(z, x, y));
      ProduceAppend(pl, nodata, read, ColumnVisits(z, x, r.yMin, y - 1), [Tile(z, x, y)]);
      written := written + w;
      y := y + 1;
    }
  }

  /** `for x in range(x_min, x_max + 1)` at one zoom level. */
  method RenderLevel(pl: Pipeline, nodata: Option<real>, read: Sampler, z: nat, r: TileRange)
    returns (written: seq<Output>)
    ensures written == Produce(pl, nodata, read, LevelVisits(z, r, r.xMax))
  {
    written := [];
    var x := r.xMin;
    while x <= r.xMax
      invariant r.xMin <= x && (x <= r.xMax + 1 || x == r.xMin)
      invariant written == Produce(pl, nodata, read, LevelVisits(z, r, x - 1))
    {
      var w := RenderColumn(pl, nodata, read, z, x, r);
      ProduceAppend(pl, nodata, read, LevelVisits(z, r, x - 1), ColumnVisits(z, x, r.yMin, r.yMax));
      written := written + w;
      x := x + 1;
    }
  }

  /** The driver: `for z in range(9, 19)` over the levels' tile ranges. */
  method GenerateTiles(pl: Pipeline, bounds: Bounds, nodata: Option<real>, read: Sampler)
    returns (outputs: seq<Output>)
    ensures outputs == Produce(pl, nodata, read, Visits(pl.clampRange, bounds, MinZoom, MaxZoom))
  {
    outputs := [];
    var z: nat := MinZoom;
    while z <= MaxZoom
      invariant MinZoom <= z <= MaxZoom + 1
      invariant outputs == Produce(pl, nodata, read, Visits(pl.clampRange, bounds, MinZoom, z - 1))
    {
      var r := RangeAt(pl.clampRange, bounds, z);
      var w := RenderLevel(pl, nodata, read, z, r);
      ProduceAppend(pl, nodata, read, Visits(pl.clampRange, bounds, MinZoom, z - 1), LevelVisits(z, r, r.xMax));
      outputs := outputs + w;
      z := z + 1;
    }
  }

  /** A tile is written exactly when it is visited and not skipped, and what is
      written for it is its rendered image under its own paths. */
  lemma {:induction false} InProduce(pl: Pipeline, nodata: Option<real>, read: Sampler, visits: seq<Tile>, o: Output)
    ensures o in Produce(pl, nodata, read, visits)
      <==> o.tile in visits && !Skipped(pl, nodata, read, o.tile) && o == OutputFor(pl, nodata, read, o.tile)
    decreases |visits|
  {
    if visits != [] {
      var init := visits[..|visits| - 1];
      InProduce(pl, nodata, read, init, o);
      assert visits == init + [visits[|visits| - 1]];
    }
  }

  /** The last visit of a run without the skip writes the last tile. */
  lemma ProduceLast(pl: Pipeline, nodata: Option<real>, read: Sampler, visits: seq<Tile>)
    requires !pl.policy.skipEmpty && visits != []
    ensures Produce(pl, nodata, read, visits)
      == Produce(pl, nodata, read, visits[..|visits| - 1]) + [OutputFor(pl, nodata, read, visits[|visits| - 1])]
  {
  }

  /** Without the skip, the i-th tile written is the i-th visit's. */
  lemma {:induction false} ProduceAt(pl: Pipeline, nodata: Option<real>, read: Sampler, visits: seq<Tile>, i: int)
    requires !pl.policy.skipEmpty && 0 <= i < |visits|
    ensures |Produce(pl, nodata, read, visits)| == |visits|
    ensures Produce(pl, nodata, read, visits)[i] == OutputFor(pl, nodata, read, visits[i])
    decreases |visits|
  {
    var n := |visits| - 1;
    ProduceLast(pl, nodata, read, visits);
    if i < n {
      ProduceAt(pl, nodata, read, visits[..n], i);
    }
  }

  /** Without the empty-tile skip, every visit writes exactly one tile, in order. */
  lemma ProduceWithoutSkipping(pl: Pipeline, nodata: Option<real>, read: Sampler, visits: seq<Tile>)
    requires !pl.policy.skipEmpty
    ensures |Produce(pl, nodata, read, visits)| == |visits|
    ensures forall i :: 0 <= i < |visits| ==> Produce(pl, nodata, read, visits)[i] == OutputFor(pl, nodata, read, visits[i])
  {
    forall i | 0 <= i < |visits|
      ensures Produce(pl, nodata, read, visits)[i] == OutputFor(pl, nodata, read, visits[i])
    {
      ProduceAt(pl, nodata, read, visits, i);
    }
  }

  /** Written tiles keep the visiting order. */
  lemma {:induction false} ProduceIncreasing(pl: Pipeline, nodata: Option<real>, read: Sampler, visits: seq<Tile>)
    requires StrictlyIncreasing(visits)
    ensures forall i, j :: 0 <= i < j < |Produce(pl, nodata, read, visits)| ==>
      Before(Produce(pl, nodata, read, visits)[i].tile, Produce(pl, nodata, read, visits)[j].tile)
    decreases |visits|
  {
    if visits != [] {
      var n := |visits| - 1;
      var init, t := visits[..n], visits[n];
      assert StrictlyIncreasing(init) by {
        forall i, j | 0 <= i < j < |init| ensures Before(init[i], init[j]) {
          assert init[i] == visits[i] && init[j] == visits[j];
        }
      }
      ProduceIncreasing(pl, nodata, read, init);
      var prefix, out := Produce(pl, nodata, read, init), Produce(pl, nodata, read, visits);
      forall i, j | 0 <= i < j < |out| ensures Before(out[i].tile, out[j].tile) {
        if j < |prefix| {
          assert out[i] == prefix[i] && out[j] == prefix[j];
        } else {
          assert out[i] == prefix[i] && out[j] == OutputFor(pl, nodata, read, t);
          assert prefix[i] in prefix;
          InProduce(pl, nodata, read, init, prefix[i]);
          var k :| 0 <= k < |init| && init[k] == prefix[i].tile;
          assert visits[k] == init[k];
        }
      }
    }
  }

  /** The separator never occurs in the decimal text of an integer. */
  lemma SeparatorFree(n: int, sep: char)
    requires !IsDigit(sep) && sep != '-'
    ensures sep !in IntToString(n)
  {
    var s := IntToString(n);
    assert forall i :: 0 <= i < |s| ==> s[i] != sep;
  }

  /** A string split at the first occurrence of a character determines both parts. */
  lemma SplitAtSeparator(a: string, b: string, a': string, b': string, c: char)
    requires c !in a && c !in a'
    requires a + [c] + b == a' + [c] + b'
    ensures a == a' && b == b'
  {
    var s := a + [c] + b;
    assert s == a' + [c] + b';
    assert s[|a|] == c && s[|a'|] == c;
    assert forall i :: 0 <= i < |a| ==> s[i] == a[i] != c;
    assert forall i :: 0 <= i < |a'| ==> s[i] == a'[i] != c;
    assert |a| == |a'|;
    assert a == s[..|a|] && a' == s[..|a'|];
    assert b == s[|a| + 1..] && b' == s[|a'| + 1..];
  }

  /** `<z>/<x>/<y>.png` determines the tile. */
  lemma RelativeTilePathInjective(sep: char, t: Tile, u: Tile)
    requires !IsDigit(sep) && sep != '-'
    requires RelativeTilePath(sep, t) == RelativeTilePath(sep, u)
    ensures t == u
  {
    var zt, xt, yt := IntToString(t.z), IntToString(t.x), IntToString(t.y) + ".png";
    var zu, xu, yu := IntToString(u.z), IntToString(u.x), IntToString(u.y) + ".png";
    assert RelativeTilePath(sep, t) == zt + [sep] + (xt + [sep] + yt);
    assert RelativeTilePath(sep, u) == zu + [sep] + (xu + [sep] + yu);
    SeparatorFree(t.z, sep);
    SeparatorFree(u.z, sep);
    SeparatorFree(t.x, sep);
    SeparatorFree(u.x, sep);
    SplitAtSeparator(zt, xt + [sep] + yt, zu, xu + [sep] + yu, sep);
    SplitAtSeparator(xt, yt, xu, yu, sep);
    assert IntToString(t.y) == yt[..|yt| - 4] == yu[..|yu| - 4] == IntToString(u.y);
    IntToStringInjective(t.z, u.z);
    IntToStringInjective(t.x, u.x);
    IntToStringInjective(t.y, u.y);
  }

  /** Distinct tiles get distinct paths under the same root, for either separator. */
  lemma TilePathInjective(root: string, sep: char, t: Tile, u: Tile)
    requires !IsDigit(sep) && sep != '-'
    ensures TilePath(root, sep, t) == TilePath(root, sep, u) <==> t == u
  {
    var head := root + [sep];
    var pt, pu := TilePath(root, sep, t), TilePath(root, sep, u);
    if pt == pu {
      assert RelativeTilePath(sep, t) == pt[|head|..];
      assert RelativeTilePath(sep, u) == pu[|head|..];
      RelativeTilePathInjective(sep, t, u);
    }
  }

  /** Distinct tiles are written to distinct files and uploaded to distinct paths. */
  lemma OutputPathsDiffer(pl: Pipeline, t: Tile, u: Tile)
    requires t != u
    ensures LocalPath(pl, t) != LocalPath(pl, u)
    ensures pl.remoteDir.Some? ==> RemotePath(pl, t) != RemotePath(pl, u)
  {
    TilePathInjective(pl.tilesDir, LocalSep, t, u);
    if pl.remoteDir.Some? {
      TilePathInjective(pl.remoteDir.value, RemoteSep, t, u);
    }
  }

  /** Outputs for increasing visits never share a local or a remote path. */
  lemma PathsOfIncreasingVisits(pl: Pipeline, nodata: Option<real>, read: Sampler, visits: seq<Tile>, i: int, j: int)
    requires StrictlyIncreasing(visits)
    requires 0 <= i < j < |Produce(pl, nodata, read, visits)|
    ensures Produce(pl, nodata, read, visits)[i].localPath != Produce(pl, nodata, read, visits)[j].localPath
    ensures pl.remoteDir.Some? ==> Produce(pl, nodata, read, visits)[i].remotePath != Produce(pl, nodata, read, visits)[j].remotePath
  {
    var out := Produce(pl, nodata, read, visits);
    var o, p := out[i], out[j];
    ProduceIncreasing(pl, nodata, read, visits);
    assert Before(o.tile, p.tile);
    InProduce(pl, nodata, read, visits, o);
    InProduce(pl, nodata, read, visits, p);
    OutputPathsDiffer(pl, o.tile, p.tile);
  }

  /** A run writes every local file, and uploads every repository file, at
      most once. */
  lemma DistinctPaths(pl: Pipeline, bounds: Bounds, nodata: Option<real>, read: Sampler, i: int, j: int)
    ensures
      var out := Produce(pl, nodata, read, Visits(pl.clampRange, bounds, MinZoom, MaxZoom));
      0 <= i < j < |out| ==>
        && out[i].localPath != out[j].localPath
        && (pl.remoteDir.Some? ==> out[i].remotePath != out[j].remotePath)
  {
    var visits := Visits(pl.clampRange, bounds, MinZoom, MaxZoom);
    if 0 <= i < j < |Produce(pl, nodata, read, visits)| {
      VisitsIncreasing(pl.clampRange, bounds, MinZoom, MaxZoom);
      PathsOfIncreasingVisits(pl, nodata, read, visits, i, j);
    }
  }

  /** A tile is written by a run exactly when its zoom is 9 to 18, it lies in
      that level's tile range, and it is not skipped as empty. */
  lemma GeneratedTiles(pl: Pipeline, bounds: Bounds, nodata: Option<real>, read: Sampler, o: Output)
    ensures o in Produce(pl, nodata, read, Visits(pl.clampRange, bounds, MinZoom, MaxZoom))
      <==> && MinZoom <= o.tile.z <= MaxZoom
           && InRange(RangeAt(pl.clampRange, bounds, o.tile.z), o.tile)
           && !Skipped(pl, nodata, read, o.tile)
           && o == OutputFor(pl, nodata, read, o.tile)
  {
    InProduce(pl, nodata, read, Visits(pl.clampRange, bounds, MinZoom, MaxZoom), o);
    InVisits(pl.clampRange, bounds, MinZoom, MaxZoom, o.tile);
  }

  // The scripts as pipelines.

  /** loop_tile_generation_with_commit.py for one soil property: clamped
      ranges, empty tiles skipped, binned colours, values clipped at 335, and
      an upload to the property's directory in the repository. */
  function LoopPipeline(property: string, classify: real -> Rgba): (pl: Pipeline)
    ensures pl.clampRange && pl.policy.skipEmpty && pl.remoteDir.Some?
    ensures forall v :: v >= 335.0 ==> Colour(pl.policy, v) == classify(335.0)
  {
    Pipeline(
      true,
      TilePolicy(335.0, Binned(classify), true, None),
      "data\\webpage\\" + property + "\\tiles",
      Some("docs/page_files/maps/" + property + "/tiles"))
  }

  /** tile_generation_with_commit.py: unclamped ranges, every tile written,
      min-max colours against 335, uploads to the PH directory. */
  function CommitPipeline(dataMin: real, colormap: Level -> Rgba): (pl: Pipeline)
    ensures !pl.clampRange && !pl.policy.skipEmpty && pl.remoteDir.Some?
    ensures dataMin < 335.0 ==> forall v :: v >= 335.0 ==> Colour(pl.policy, v) == colormap(Finite(1.0))
  {
    Pipeline(
      false,
      TilePolicy(335.0, Scaled(dataMin, colormap), false, None),
      "github\\digital-soil-mapping\\docs\\page_files\\maps\\PH\\tiles",
      Some("docs/page_files/maps/PH/tiles"))
  }

  /** The local tiles directories of tile_generation.py and the batch script. */
  const PhTilesDir: string := "main\\html\\tiles"
  const BatchTilesDir: string := "main\\html\\agronomy_farms_soil_mapping\\docs\\page_files\\maps\\PH_auto\\tiles"

  /** tile_generation.py (with PhTilesDir) and
      tile_generation_with_batch_commit.py (with BatchTilesDir): unclamped
      ranges, every tile written, min-max colours against 14, samples at or
      below 4 hidden, no per-tile upload. */
  function PhPipeline(tilesDir: string, dataMin: real, colormap: Level -> Rgba): (pl: Pipeline)
    ensures !pl.clampRange && !pl.policy.skipEmpty && pl.remoteDir.None?
    ensures forall nodata: Option<real>, v :: v <= 4.0 ==> Pixel(pl.policy, nodata, v) == Transparent
  {
    Pipeline(false, TilePolicy(14.0, Scaled(dataMin, colormap), false, Some(4.0)), tilesDir, None)
  }

  /** The loop script writes only valid XYZ tiles that hold data, writes each
      such tile of the raster's range, and uploads it under the same z/x/y. */
  lemma LoopScriptTiles(property: string, classify: real -> Rgba, bounds: Bounds, nodata: Option<real>, read: Sampler, t: Tile)
    ensures
      var pl := LoopPipeline(property, classify);
      var out := Produce(pl, nodata, read, Visits(true, bounds, MinZoom, MaxZoom));
      && (OutputFor(pl, nodata, read, t) in out
          <==> && MinZoom <= t.z <= MaxZoom
               && InRange(ClampedTileRangeOf(bounds, t.z), t)
               && !IsEmptyTile(read(TileArea(t)), nodata))
      && (OutputFor(pl, nodata, read, t) in out ==> 0 <= t.x < Pow2(t.z) && 0 <= t.y < Pow2(t.z))
  {
    var pl := LoopPipeline(property, classify);
    var o := OutputFor(pl, nodata, read, t);
    GeneratedTiles(pl, bounds, nodata, read, o);
    assert o.tile == t;
    if o in Produce(pl, nodata, read, Visits(true, bounds, MinZoom, MaxZoom)) {
      InVisits(true, bounds, MinZoom, MaxZoom, t);
      ClampedVisitsInGrid(bounds, t);
    }
  }

  /** The loop script uploads each tile to its property's directory under the
      same z/x/y as the local file. */
  lemma LoopScriptUploadPath(property: string, classify: real -> Rgba, t: Tile)
    ensures RemotePath(LoopPipeline(property, classify), t)
      == Some("docs/page_files/maps/" + property + "/tiles/" + RelativeTilePath(RemoteSep, t))
  {
    var head := "docs/page_files/maps/" + property;
    assert "/tiles" + [RemoteSep] == "/tiles/";
    assert head + "/tiles" + [RemoteSep] == head + "/tiles/";
  }

  /** The uploading PH script writes and uploads one tile per visited address,
      empty or not, in visiting order. */
  lemma CommitScriptWritesEveryTile(dataMin: real, colormap: Level -> Rgba, bounds: Bounds, nodata: Option<real>, read: Sampler)
    ensures
      var visits := Visits(false, bounds, MinZoom, MaxZoom);
      var out := Produce(CommitPipeline(dataMin, colormap), nodata, read, visits);
      && |out| == |visits|
      && forall i :: 0 <= i < |out| ==> out[i] == OutputFor(CommitPipeline(dataMin, colormap), nodata, read, visits[i])
  {
    ProduceWithoutSkipping(CommitPipeline(dataMin, colormap), nodata, read, Visits(false, bounds, MinZoom, MaxZoom));
  }

  /** Without the skip, the k-th pixel of the i-th tile written is the k-th
      pixel of the i-th visit's samples, masked as the policy says. */
  lemma WrittenPixel(pl: Pipeline, nodata: Option<real>, read: Sampler, visits: seq<Tile>, i: int, k: int)
    requires !pl.policy.skipEmpty
    requires 0 <= i < |visits|
    requires 0 <= k < |read(TileArea(visits[i]))|
    ensures |Produce(pl, nodata, read, visits)| == |visits|
    ensures Produce(pl, nodata, read, visits)[i] == OutputFor(pl, nodata, read, visits[i])
    ensures Produce(pl, nodata, read, visits)[i].image[k] == Pixel(pl.policy, nodata, read(TileArea(visits[i]))[k])
  {
    ProduceWithoutSkipping(pl, nodata, read, visits);
  }

  /** tile_generation.py and the batch script write one tile per visited
      address with no skip; in each, a pixel is transparent when its raw sample
      is the no-data value or at most 4, and otherwise takes the colour of its
      sample normalised against dataMin and 14. */
  lemma PhScriptTiles(tilesDir: string, dataMin: real, colormap: Level -> Rgba, bounds: Bounds,
                      nodata: Option<real>, read: Sampler, i: int, k: int)
    ensures
      var visits := Visits(false, bounds, MinZoom, MaxZoom);
      var out := Produce(PhPipeline(tilesDir, dataMin, colormap), nodata, read, visits);
      && |out| == |visits|
      && (0 <= i < |visits| && 0 <= k < |read(TileArea(visits[i]))| ==>
            var samples := read(TileArea(visits[i]));
            && out[i].tile == visits[i]
            && out[i].remotePath.None?
            && |out[i].image| == |samples|
            && out[i].image[k] == if nodata == Some(samples[k]) || samples[k] <= 4.0 then Transparent
                                  else colormap(Normalise(samples[k], dataMin, 14.0)))
  {
    var pl := PhPipeline(tilesDir, dataMin, colormap);
    var visits := Visits(false, bounds, MinZoom, MaxZoom);
    ProduceWithoutSkipping(pl, nodata, read, visits);
    if 0 <= i < |visits| && 0 <= k < |read(TileArea(visits[i]))| {
      WrittenPixel(pl, nodata, read, visits, i, k);
    }
  }

  /** tile_generation.py colours with RdBu and the batch script with viridis;
      otherwise they differ only in where they write. Over the same raster
      they write the same tiles in the same order, each under its own
      directory, hide the same pixels, and colour every other pixel from the
      same normalised level, each with its own colormap. */
  lemma PhScriptsAgree(dataMin: real, rdbu: Level -> Rgba, viridis: Level -> Rgba, bounds: Bounds,
                       nodata: Option<real>, read: Sampler, i: int, k: int)
    ensures
      var visits := Visits(false, bounds, MinZoom, MaxZoom);
      var ph := Produce(PhPipeline(PhTilesDir, dataMin, rdbu), nodata, read, visits);
      var batch := Produce(PhPipeline(BatchTilesDir, dataMin, viridis), nodata, read, visits);
      && |ph| == |batch| == |visits|
      && (0 <= i < |visits| ==>
            && ph[i].tile == batch[i].tile == visits[i]
            && |ph[i].localPath| > |PhTilesDir| && ph[i].localPath[..|PhTilesDir|] == PhTilesDir
            && |batch[i].localPath| > |BatchTilesDir| && batch[i].localPath[..|BatchTilesDir|] == BatchTilesDir)
      && (0 <= i < |visits| && 0 <= k < |read(TileArea(visits[i]))| ==>
            var v := read(TileArea(visits[i]))[k];
            && |ph[i].image| == |batch[i].image| == |read(TileArea(visits[i]))|
            && (nodata == Some(v) || v <= 4.0 ==> ph[i].image[k] == Transparent && batch[i].image[k] == Transparent)
            && (nodata != Some(v) && v > 4.0 ==>
                  && ph[i].image[k] == rdbu(Normalise(v, dataMin, 14.0))
                  && batch[i].image[k] == viridis(Normalise(v, dataMin, 14.0))))
  {
    var visits := Visits(false, bounds, MinZoom, MaxZoom);
    var ph := PhPipeline(PhTilesDir, dataMin, rdbu);
    var batch := PhPipeline(BatchTilesDir, dataMin, viridis);
    PhScriptTiles(PhTilesDir, dataMin, rdbu, bounds, nodata, read, i, k);
    PhScriptTiles(BatchTilesDir, dataMin, viridis, bounds, nodata, read, i, k);
    if 0 <= i < |visits| {
      ProduceAt(ph, nodata, read, visits, i);
      ProduceAt(batch, nodata, read, visits, i);
      TilePathShape(PhTilesDir, LocalSep, visits[i]);
      TilePathShape(BatchTilesDir, LocalSep, visits[i]);
    }
  }
}
