/** The image tiler: checks the decoded size of a photo, derives a grid of
    100 x 100 tiles by truncating division, and writes one tile per grid
    cell, row by row, into the processor's temporary directory. */
module ImageProcessing {
  import opened Wrappers
  import opened Text
  import opened Sequencing

  /** Edge of a tile in pixels, and the largest number of tiles per image. */
  const TileSize: nat := 100
  const MaxTiles: nat := 120

  /** What decoding the downloaded bytes yields: nothing, or the width and
      height found in the image metadata (each possibly absent). */
  datatype Image = Undecodable | Decoded(width: Option<nat>, height: Option<nat>)

  datatype Grid = Grid(tilesX: nat, tilesY: nat)

  /** A pixel rectangle of the source image. */
  datatype Rect = Rect(left: nat, top: nat, width: nat, height: nat)

  /** A written tile: the rectangle extracted from the source and the file holding it. */
  datatype Tile = Tile(rect: Rect, path: string)

  datatype TileError =
    | DecodeFailed        // the image library cannot read the bytes
    | MissingDimensions   // "Could not determine image dimensions"
    | TooSmall            // "Image is too small to create tiles. ..."
    | TooLarge            // "Image is too large. ..."
    | WriteFailed(path: string)

  /** The grid of whole tiles that fits in the image; the pixels past the last
      whole tile in each direction belong to no tile. */
  function GridOf(width: nat, height: nat): (g: Grid)
    ensures g.tilesX * TileSize <= width < (g.tilesX + 1) * TileSize
    ensures g.tilesY * TileSize <= height < (g.tilesY + 1) * TileSize
  {
    Grid(width / TileSize, height / TileSize)
  }

  /** Accepts a grid of at least one and at most `MaxTiles` tiles. */
  function ValidateDimensions(g: Grid): (r: Option<TileError>)
    ensures r == None <==> 1 <= g.tilesX * g.tilesY <= MaxTiles
    ensures r == Some(TooSmall) <==> g.tilesX * g.tilesY == 0
    ensures r == Some(TooLarge) <==> g.tilesX * g.tilesY > MaxTiles
  {
    if g.tilesX == 0 || g.tilesY == 0 then Some(TooSmall)
    else if g.tilesX * g.tilesY > MaxTiles then Some(TooLarge)
    else None
  }

  /** The checks made before any tile is written, stated in pixels. */
  function CheckImage(image: Image): (r: Result<Grid, TileError>)
    ensures r == Failure(DecodeFailed) <==> image.Undecodable?
    ensures r == Failure(MissingDimensions) <==>
      image.Decoded? && (image.width in {None, Some(0)} || image.height in {None, Some(0)})
    ensures r == Failure(TooSmall) <==>
      image.Decoded? && image.width.Some? && image.height.Some? && image.width.value > 0 && image.height.value > 0 &&
      (image.width.value < TileSize || image.height.value < TileSize)
    ensures r == Failure(TooLarge) <==>
      image.Decoded? && image.width.Some? && image.height.Some? &&
      image.width.value >= TileSize && image.height.value >= TileSize &&
      (image.width.value / TileSize) * (image.height.value / TileSize) > MaxTiles
    ensures r.Success? <==>
      image.Decoded? && image.width.Some? && image.height.Some? &&
      image.width.value >= TileSize && image.height.value >= TileSize &&
      (image.width.value / TileSize) * (image.height.value / TileSize) <= MaxTiles
    ensures r.Success? ==>
      image.Decoded? && image.width.Some? && image.height.Some? &&
      r.value == GridOf(image.width.value, image.height.value) &&
      1 <= r.value.tilesY * r.value.tilesX <= MaxTiles
  {
    match image
    case Undecodable => Failure(DecodeFailed)
    case Decoded(width, height) =>
      if width.None? || height.None? || width.value == 0 || height.value == 0 then Failure(MissingDimensions)
      else
        var g := GridOf(width.value, height.value);
        match ValidateDimensions(g)
        case Some(e) => Failure(e)
        case None => Success(g)
  }

  /** `tile_<x>_<y>.png` with both numbers in decimal. */
  function TileFileName(x: nat, y: nat): string {
    "tile_" + Digits(x, 10) + "_" + Digits(y, 10) + ".png"
  }

  function TilePath(dir: string, x: nat, y: nat): string {
    dir + "/" + TileFileName(x, y)
  }

  /** Different cells never share a file. */
  lemma TilePathInjective(dir: string, x1: nat, y1: nat, x2: nat, y2: nat)
    requires TilePath(dir, x1, y1) == TilePath(dir, x2, y2)
    ensures x1 == x2 && y1 == y2
  {
    TilePathShape(dir, x1, y1);
    TilePathShape(dir, x2, y2);
    DropPrefix(dir + "/tile_", Digits(x1, 10) + ['_'] + (Digits(y1, 10) + ".png"), Digits(x2, 10) + ['_'] + (Digits(y2, 10) + ".png"));
    SplitDigits(x1, x2, 10, '_', Digits(y1, 10) + ".png", Digits(y2, 10) + ".png");
    DropSuffix(Digits(y1, 10), Digits(y2, 10), ".png");
    DigitsInjective(y1, y2, 10);
  }

  lemma TilePathShape(dir: string, x: nat, y: nat)
    ensures TilePath(dir, x, y) == (dir + "/tile_") + (Digits(x, 10) + ['_'] + (Digits(y, 10) + ".png"))
  {
    assert "/" + "tile_" == "/tile_";
  }

  /** The tile of cell (x, y): the square at (x*T, y*T) of side T, and its file. */
  function TileAt(dir: string, x: nat, y: nat): Tile {
    Tile(Rect(x * TileSize, y * TileSize, TileSize, TileSize), TilePath(dir, x, y))
  }

  /** The first `n` tiles of row `y`, left to right. */
  function Row(dir: string, y: nat, n: nat): (r: seq<Tile>)
    ensures |r| == n
  {
    if n == 0 then [] else Row(dir, y, n - 1) + [TileAt(dir, n - 1, y)]
  }

  /** The first `n` rows of a grid `tilesX` wide, top to bottom. */
  function Rows(dir: string, tilesX: nat, n: nat): (r: seq<Tile>)
    ensures |r| == n * tilesX
  {
    if n == 0 then [] else Rows(dir, tilesX, n - 1) + Row(dir, n - 1, tilesX)
  }

  /** Every tile of the grid in row-major order (y outer, x inner). */
  function TilePlan(dir: string, g: Grid): seq<Tile> {
    Rows(dir, g.tilesX, g.tilesY)
  }

  function PathsOf(tiles: seq<Tile>): (paths: seq<string>)
    ensures |paths| == |tiles|
    ensures forall i :: 0 <= i < |tiles| ==> paths[i] == tiles[i].path
  {
    seq(|tiles|, i requires 0 <= i < |tiles| => tiles[i].path)
  }

  lemma PathsOfNext(tiles: seq<Tile>, i: nat)
    requires i < |tiles|
    ensures PathsOf(tiles[..i + 1]) == PathsOf(tiles[..i]) + [tiles[i].path]
  {
  }

  lemma {:induction false} RowAt(dir: string, y: nat, n: nat, x: nat)
    requires x < n
    ensures Row(dir, y, n)[x] == TileAt(dir, x, y)
  {
    if x < n - 1 {
      RowAt(dir, y, n - 1, x);
    }
  }

  /** Row-major order: cell (x, y) is entry `y * tilesX + x` of the plan. */
  lemma {:induction false} PlanAt(dir: string, g: Grid, x: nat, y: nat)
    requires x < g.tilesX && y < g.tilesY
    ensures 0 <= y * g.tilesX + x < |TilePlan(dir, g)|
    ensures TilePlan(dir, g)[y * g.tilesX + x] == TileAt(dir, x, y)
    decreases g.tilesY
  {
    var tx, n := g.tilesX, g.tilesY - 1;
    MulMono(0, y, tx);
    var i := y * tx + x;
    var before := Rows(dir, tx, n);
    var row := Row(dir, n, tx);
    assert TilePlan(dir, g) == before + row;
    assert |before| == n * tx;
    if y == n {
      assert i == |before| + x;
      RowAt(dir, y, tx, x);
      assert (before + row)[i] == row[x];
      assert TilePlan(dir, g)[i] == TileAt(dir, x, y);
    } else {
      CellBeforeRow(x, y, n, tx);
      PlanAt(dir, Grid(tx, n), x, y);
      assert TilePlan(dir, Grid(tx, n)) == before;
      assert (before + row)[i] == before[i];
      assert TilePlan(dir, g)[i] == TileAt(dir, x, y);
    }
  }

  /** A cell of a row above row `n` comes before the first cell of row `n`. */
  lemma CellBeforeRow(x: nat, y: nat, n: nat, tx: nat)
    requires x < tx && y < n
    ensures y * tx + x < n * tx
  {
    MulMono(y + 1, n, tx);
  }

  lemma NextRow(y: nat, tx: nat)
    ensures (y + 1) * tx == y * tx + tx
  {
  }

  lemma MulMono(a: nat, b: nat, c: nat)
    requires a <= b
    ensures a * c <= b * c
  {
  }

  /** Every tile of the plan is the tile of one of the grid's cells. */
  lemma {:induction false} PlanMember(dir: string, g: Grid, t: Tile)
    requires t in TilePlan(dir, g)
    ensures exists x: nat, y: nat :: x < g.tilesX && y < g.tilesY && t == TileAt(dir, x, y)
    decreases g.tilesY
  {
    var n := g.tilesY - 1;
    var row := Row(dir, n, g.tilesX);
    assert TilePlan(dir, g) == TilePlan(dir, Grid(g.tilesX, n)) + row;
    if t in row {
      var x :| 0 <= x < |row| && row[x] == t;
      RowAt(dir, n, g.tilesX, x);
      assert t == TileAt(dir, x, n);
    } else {
      PlanMember(dir, Grid(g.tilesX, n), t);
    }
  }

  /** The plan holds exactly the tiles of the grid's cells. */
  lemma PlanCells(dir: string, g: Grid, t: Tile)
    ensures t in TilePlan(dir, g) <==>
      exists x: nat, y: nat :: x < g.tilesX && y < g.tilesY && t == TileAt(dir, x, y)
  {
    if t in TilePlan(dir, g) {
      PlanMember(dir, g, t);
    }
    if exists x: nat, y: nat :: x < g.tilesX && y < g.tilesY && t == TileAt(dir, x, y) {
      var x: nat, y: nat :| x < g.tilesX && y < g.tilesY && t == TileAt(dir, x, y);
      PlanAt(dir, g, x, y);
    }
  }

  /** The squares of two different cells do not overlap. */
  lemma TilesDisjoint(dir: string, x1: nat, y1: nat, x2: nat, y2: nat)
    requires x1 != x2 || y1 != y2
    ensures var r1 := TileAt(dir, x1, y1).rect;
      var r2 := TileAt(dir, x2, y2).rect;
      r1.left + r1.width <= r2.left || r2.left + r2.width <= r1.left ||
      r1.top + r1.height <= r2.top || r2.top + r2.height <= r1.top
  {
  }

  /** Within a row, different positions have different files. */
  lemma RowPathsDistinct(dir: string, y: nat, n: nat)
    ensures forall i, j :: 0 <= i < j < n ==> Row(dir, y, n)[i].path != Row(dir, y, n)[j].path
  {
    forall i, j | 0 <= i < j < n
      ensures Row(dir, y, n)[i].path != Row(dir, y, n)[j].path
    {
      RowAt(dir, y, n, i);
      RowAt(dir, y, n, j);
      if Row(dir, y, n)[i].path == Row(dir, y, n)[j].path {
        TilePathInjective(dir, i, y, j, y);
      }
    }
  }

  /** No two tiles of a plan are written to the same file. */
  lemma {:induction false} PlanPathsDistinct(dir: string, g: Grid)
    ensures forall i, j :: 0 <= i < j < |TilePlan(dir, g)| ==> TilePlan(dir, g)[i].path != TilePlan(dir, g)[j].path
    decreases g.tilesY
  {
    if g.tilesY > 0 {
      var n := g.tilesY - 1;
      var above := TilePlan(dir, Grid(g.tilesX, n));
      var row := Row(dir, n, g.tilesX);
      var plan := above + row;
      assert TilePlan(dir, g) == plan;
      PlanPathsDistinct(dir, Grid(g.tilesX, n));
      RowPathsDistinct(dir, n, g.tilesX);
      forall i, j | 0 <= i < j < |plan|
        ensures plan[i].path != plan[j].path
      {
        if j < |above| {
          assert plan[i] == above[i] && plan[j] == above[j];
        } else if |above| <= i {
          assert plan[i] == row[i - |above|] && plan[j] == row[j - |above|];
        } else {
          assert plan[i] == above[i] && plan[j] == row[j - |above|];
          PlanMember(dir, Grid(g.tilesX, n), above[i]);
          var x: nat, y: nat :| x < g.tilesX && y < n && above[i] == TileAt(dir, x, y);
          RowAt(dir, n, g.tilesX, j - |above|);
          if plan[i].path == plan[j].path {
            TilePathInjective(dir, x, y, j - |above|, n);
          }
        }
      }
    }
  }

  /** Every tile of an accepted image is a whole T x T square inside it. */
  lemma PlanInsideImage(dir: string, image: Image)
    requires CheckImage(image).Success?
    ensures forall t :: t in TilePlan(dir, CheckImage(image).value) ==>
      t.rect.width == TileSize && t.rect.height == TileSize &&
      t.rect.left + t.rect.width <= image.width.value &&
      t.rect.top + t.rect.height <= image.height.value
  {
    var g := CheckImage(image).value;
    forall t | t in TilePlan(dir, g)
      ensures t.rect.width == TileSize && t.rect.height == TileSize
      ensures t.rect.left + t.rect.width <= image.width.value
      ensures t.rect.top + t.rect.height <= image.height.value
    {
      PlanMember(dir, g, t);
    }
  }

  /** What `processImage` does, given the files already in the directory and
      the disk's answer to each write. */
  datatype TilingRun = TilingRun(written: seq<Tile>, result: Result<seq<string>, TileError>)

  function Tiling(image: Image, dir: string, files: seq<Tile>, disk: (seq<Tile>, Tile) -> bool): (run: TilingRun)
    ensures CheckImage(image).Failure? ==> run == TilingRun([], Failure(CheckImage(image).error))
    ensures run.result.Success? ==>
      var g := CheckImage(image).value;
      run.written == TilePlan(dir, g) && run.result.value == PathsOf(TilePlan(dir, g)) &&
      1 <= |run.result.value| == g.tilesY * g.tilesX <= MaxTiles
    ensures CheckImage(image).Success? ==> run.written <= TilePlan(dir, CheckImage(image).value)
  {
    match CheckImage(image)
    case Failure(e) => TilingRun([], Failure(e))
    case Success(g) =>
      var plan := TilePlan(dir, g);
      var k := Completed(files, plan, disk);
      TilingRun(plan[..k], if k == |plan| then Success(PathsOf(plan)) else Failure(WriteFailed(plan[k].path)))
  }

  /** An accepted image whose every tile write succeeds is tiled completely:
      the whole plan is written and all its paths are returned. */
  lemma TilingCompletes(image: Image, dir: string, files: seq<Tile>, disk: (seq<Tile>, Tile) -> bool)
    requires CheckImage(image).Success?
    requires var plan := TilePlan(dir, CheckImage(image).value);
      forall j :: 0 <= j < |plan| ==> disk(files + plan[..j], plan[j])
    ensures var plan := TilePlan(dir, CheckImage(image).value);
      Tiling(image, dir, files, disk) == TilingRun(plan, Success(PathsOf(plan)))
  {
    var plan := TilePlan(dir, CheckImage(image).value);
    CompletedIs(files, plan, disk, |plan|);
    assert plan[..|plan|] == plan;
  }

  /** A failed write stops the tiling: the tiles before it were all written,
      the refused one is named in the error, and nothing after it is tried. */
  lemma TilingStopsAt(image: Image, dir: string, files: seq<Tile>, disk: (seq<Tile>, Tile) -> bool)
    requires Tiling(image, dir, files, disk).result.Failure?
    requires Tiling(image, dir, files, disk).result.error.WriteFailed?
    ensures CheckImage(image).Success?
    ensures var plan := TilePlan(dir, CheckImage(image).value);
      var run := Tiling(image, dir, files, disk);
      var k := |run.written|;
      k < |plan| && run.written == plan[..k] &&
      (forall j :: 0 <= j < k ==> disk(files + plan[..j], plan[j])) &&
      !disk(files + plan[..k], plan[k]) &&
      run.result.error == WriteFailed(plan[k].path)
  {
  }

  /** The worked example: a 250 x 150 image gives a 2 x 1 grid, whose tiles
      are the squares at (0, 0) and (100, 0), in that order. */
  lemma TwoByOneExample(dir: string)
    ensures CheckImage(Decoded(Some(250), Some(150))) == Success(Grid(2, 1))
    ensures TilePlan(dir, Grid(2, 1)) ==
      [Tile(Rect(0, 0, 100, 100), TilePath(dir, 0, 0)), Tile(Rect(100, 0, 100, 100), TilePath(dir, 1, 0))]
  {
    assert GridOf(250, 150) == Grid(2, 1);
    assert Row(dir, 0, 2) == [TileAt(dir, 0, 0), TileAt(dir, 1, 0)];
    assert TilePlan(dir, Grid(2, 1)) == Rows(dir, 2, 0) + Row(dir, 0, 2);
  }

  class ImageProcessor {
    const tempDir: string
    /** Whether the disk accepts writing a tile after the given ones. */
    const disk: (seq<Tile>, Tile) -> bool
    /** Whether removing the directory succeeds while it holds the given tiles. */
    const removes: seq<Tile> -> bool
    /** Tiles currently stored in `tempDir`, in the order written. */
    var files: seq<Tile>
    var dirExists: bool
    /** How many times `Cleanup` has run. */
    var cleanups: nat

    constructor (tempDir: string, disk: (seq<Tile>, Tile) -> bool, removes: seq<Tile> -> bool)
      ensures this.tempDir == tempDir && this.disk == disk && this.removes == removes
      ensures files == [] && dirExists && cleanups == 0
    {
      this.tempDir := tempDir;
      this.disk := disk;
      this.removes := removes;
      files := [];
      dirExists := true;
      cleanups := 0;
    }

    method ProcessImage(image: Image) returns (r: Result<seq<string>, TileError>)
      modifies this`files
      ensures var run := Tiling(image, tempDir, old(files), disk);
        files == old(files) + run.written && r == run.result
    {
      var checked := CheckImage(image);
      if checked.Failure? {
        return Failure(checked.error);
      }
      r := CreateTiles(checked.value);
    }

    /** Encodes one tile and saves it to its file. */
    method WriteTile(tile: Tile) returns (ok: bool)
      modifies this`files
      ensures ok == disk(old(files), tile)
      ensures files == if ok then old(files) + [tile] else old(files)
    {
      ok := disk(files, tile);
      if ok {
        files := files + [tile];
      }
    }

    method CreateTiles(g: Grid) returns (r: Result<seq<string>, TileError>)
      modifies this`files
      ensures var plan := TilePlan(tempDir, g);
        var k := Completed(old(files), plan, disk);
        files == old(files) + plan[..k] &&
        r == if k == |plan| then Success(PathsOf(plan)) else Failure(WriteFailed(plan[k].path))
    {
      ghost var history := files;
      ghost var plan := TilePlan(tempDir, g);
      ghost var done: nat := 0;  // tiles written so far
      var tilePaths: seq<string> := [];
      var y := 0;
      while y < g.tilesY
        invariant y <= g.tilesY && done == y * g.tilesX <= |plan|
        invariant files == history + plan[..done]
        invariant tilePaths == PathsOf(plan[..done])
        invariant forall j :: 0 <= j < done ==> disk(history + plan[..j], plan[j])
      {
        ghost var rowStart := done;
        NextRow(y, g.tilesX);
        MulMono(y + 1, g.tilesY, g.tilesX);
        var x := 0;
        while x < g.tilesX
          invariant x <= g.tilesX && done == rowStart + x <= |plan|
          invariant files == history + plan[..done]
          invariant tilePaths == PathsOf(plan[..done])
          invariant forall j :: 0 <= j < done ==> disk(history + plan[..j], plan[j])
        {
          PlanAt(tempDir, g, x, y);
          var tile := Tile(Rect(x * TileSize, y * TileSize, TileSize, TileSize), TilePath(tempDir, x, y));
          assert plan[done] == tile;
          var ok := WriteTile(tile);
          if !ok {
            CompletedIs(history, plan, disk, done);
            return Failure(WriteFailed(tile.path));
          }
          AcceptedNext(history, plan, disk, done);
          TakeNext(plan, done);
          PathsOfNext(plan, done);
          tilePaths := tilePaths + [tile.path];
          x := x + 1;
          done := done + 1;
        }
        y := y + 1;
      }
      assert plan[..done] == plan;
      CompletedIs(history, plan, disk, |plan|);
      r := Success(tilePaths);
    }

    /** Removes the temporary directory with everything in it. A failed
        removal is swallowed: the directory stays as it was, and no error
        reaches the caller. */
    method Cleanup()
      modifies this`files, this`dirExists, this`cleanups
      ensures cleanups == old(cleanups) + 1
      ensures removes(old(files)) ==> files == [] && !dirExists
      ensures !removes(old(files)) ==> files == old(files) && dirExists == old(dirExists)
    {
      if removes(files) {
        files := [];
        dirExists := false;
      }
      cleanups := cleanups + 1;
    }
  }
}
