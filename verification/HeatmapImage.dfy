/** The heatmap processor: grey levels of every picture are added, clipped, to one buffer, and each
    answer is that buffer scaled to 0..255. Real numbers stand for binary32. */
module HeatmapImage {
  import opened Pictures
  import opened Wrappers

  type Grid = seq<seq<real>>

  /** Perceived brightness of a pixel, between 0 (black) and 1 (white). */
  function Gray(p: RGB): (g: real)
    ensures 0.0 <= g <= 1.0
    ensures g == 0.0 <==> p == RGB(0, 0, 0)
    ensures g == 1.0 <==> p == RGB(255, 255, 255)
  {
    0.299 * (p.r as real / 255.0) + 0.587 * (p.g as real / 255.0) + 0.114 * (p.b as real / 255.0)
  }

  /** What the buffer cell (i, j) holds after the given pictures. */
  function Heat(images: seq<Image>, i: nat, j: nat): real {
    if images == [] then 0.0
    else
      var before := Heat(images[..|images| - 1], i, j);
      var last := images[|images| - 1];
      if Covers(last, i, j) then before + Gray(last.pixels[i][j]) else before
  }

  /** A cell lies between 0 and the number of pictures covering it. */
  lemma {:induction false} HeatBounds(images: seq<Image>, i: nat, j: nat)
    ensures 0.0 <= Heat(images, i, j) <= Coverage(images, i, j) as real
  {
    if images != [] {
      HeatBounds(images[..|images| - 1], i, j);
    }
  }

  /** A cell never decreases as more pictures arrive, and grows by at most one a picture. */
  lemma {:induction false} HeatGrows(images: seq<Image>, more: seq<Image>, i: nat, j: nat)
    ensures Heat(images, i, j) <= Heat(images + more, i, j) <= Heat(images, i, j) + |more| as real
  {
    if more == [] {
      assert images + more == images;
    } else {
      HeatGrows(images, more[..|more| - 1], i, j);
      assert (images + more)[..|images + more| - 1] == images + more[..|more| - 1];
    }
  }

  // ---- normalisation ----------------------------------------------------------------------

  predicate Rectangle(g: Grid, rows: nat, cols: nat) {
    |g| == rows && forall i :: 0 <= i < rows ==> |g[i]| == cols
  }

  function RowMax(row: seq<real>): (m: real)
    requires row != []
    ensures m in row
    ensures forall j :: 0 <= j < |row| ==> row[j] <= m
  {
    if |row| == 1 then row[0]
    else
      var m := RowMax(row[1..]);
      if row[0] < m then m else row[0]
  }

  /** The largest cell of a grid without empty rows. */
  function GridMax(g: Grid): (m: real)
    requires g != [] && forall i :: 0 <= i < |g| ==> g[i] != []
    ensures exists i, j :: 0 <= i < |g| && 0 <= j < |g[i]| && g[i][j] == m
    ensures forall i, j :: 0 <= i < |g| && 0 <= j < |g[i]| ==> g[i][j] <= m
  {
    var first := RowMax(g[0]);
    if |g| == 1 then
      assert exists j :: 0 <= j < |g[0]| && g[0][j] == first;
      first
    else
      var rest := GridMax(g[1..]);
      assert forall i :: 0 < i < |g| ==> g[i] == g[1..][i - 1];
      assert exists i, j :: 0 <= i < |g| && 0 <= j < |g[i]| && g[i][j] == (if first < rest then rest else first) by {
        if first < rest {
          var i, j :| 0 <= i < |g[1..]| && 0 <= j < |g[1..][i]| && g[1..][i][j] == rest;
          assert g[i + 1][j] == rest;
        } else {
          var j :| 0 <= j < |g[0]| && g[0][j] == first;
        }
      }
      if first < rest then rest else first
  }

  function Scaled(x: real, max: real): real
    requires max != 0.0
  {
    (x / max) * 255.0
  }

  /** The displayed map: the buffer itself while it is all zero, else the buffer scaled by its
      maximum. A buffer without cells has no maximum, and numpy raises. */
  function GetHeatmap(g: Grid): (r: Option<Grid>)
  {
    if g == [] || exists i :: 0 <= i < |g| && g[i] == [] then None
    else
      var max := GridMax(g);
      if max == 0.0 then Some(g)
      else Some(seq(|g|, i requires 0 <= i < |g| => seq(|g[i]|, j requires 0 <= j < |g[i]| => Scaled(g[i][j], max))))
  }

  lemma ScaledBounds(x: real, max: real)
    requires 0.0 <= x <= max && max > 0.0
    ensures 0.0 <= Scaled(x, max) <= 255.0
    ensures Scaled(x, max) == 255.0 <==> x == max
  {
    assert x == (x / max) * max;
    if x / max > 1.0 { assert (x / max) * max > max; }
  }

  lemma ScaledOrder(x: real, y: real, max: real)
    requires max > 0.0
    ensures x <= y <==> Scaled(x, max) <= Scaled(y, max)
  {
    assert x == (x / max) * max && y == (y / max) * max;
    if x / max <= y / max { assert (x / max) * max <= (y / max) * max; }
    else { assert (x / max) * max > (y / max) * max; }
  }

  /** The displayed map of any non-negative buffer: same shape, every cell in 0..255, some cell at
      255 unless the buffer is all zero, and the order of the cells kept in both directions. */
  lemma HeatmapShape(g: Grid, rows: nat, cols: nat)
    requires Rectangle(g, rows, cols) && rows > 0 && cols > 0
    requires forall i, j :: 0 <= i < rows && 0 <= j < cols ==> g[i][j] >= 0.0
    ensures GetHeatmap(g).Some? && Rectangle(GetHeatmap(g).value, rows, cols)
    ensures var h := GetHeatmap(g).value;
            && (forall i, j :: 0 <= i < rows && 0 <= j < cols ==> 0.0 <= h[i][j] <= 255.0)
            && ((exists i, j :: 0 <= i < rows && 0 <= j < cols && h[i][j] == 255.0) <==>
                (exists i, j :: 0 <= i < rows && 0 <= j < cols && g[i][j] != 0.0))
    ensures var h := GetHeatmap(g).value;
            forall i, j, i', j' :: 0 <= i < rows && 0 <= j < cols && 0 <= i' < rows && 0 <= j' < cols ==>
              (g[i][j] <= g[i'][j'] <==> h[i][j] <= h[i'][j'])
  {
    var max := GridMax(g);
    var a, b :| 0 <= a < rows && 0 <= b < |g[a]| && g[a][b] == max;
    var h := GetHeatmap(g).value;
    if max != 0.0 {
      forall i, j | 0 <= i < rows && 0 <= j < cols
        ensures h[i][j] == Scaled(g[i][j], max) && 0.0 <= h[i][j] <= 255.0
      {
        ScaledBounds(g[i][j], max);
      }
      ScaledBounds(max, max);
      assert h[a][b] == 255.0;
      forall i, j, i', j' | 0 <= i < rows && 0 <= j < cols && 0 <= i' < rows && 0 <= j' < cols
        ensures g[i][j] <= g[i'][j'] <==> h[i][j] <= h[i'][j']
      {
        ScaledOrder(g[i][j], g[i'][j'], max);
      }
    }
  }

  /** The buffer of a session as a value. */
  function HeatGrid(width: nat, height: nat, images: seq<Image>): (g: Grid)
    ensures Rectangle(g, width, height)
    ensures forall i, j :: 0 <= i < width && 0 <= j < height ==> g[i][j] == Heat(images, i, j)
  {
    seq(width, i requires 0 <= i < width => seq(height, j requires 0 <= j < height => Heat(images, i, j)))
  }

  /** What a client sees: for any pictures, every answer of a session with a non-empty buffer is a
      map in 0..255 that ranks two cells exactly as their accumulated heat does. */
  lemma AnswerRanksHeat(width: nat, height: nat, images: seq<Image>)
    requires width > 0 && height > 0
    ensures GetHeatmap(HeatGrid(width, height, images)).Some?
    ensures var h := GetHeatmap(HeatGrid(width, height, images)).value;
            && Rectangle(h, width, height)
            && forall i, j, i', j' :: 0 <= i < width && 0 <= j < height && 0 <= i' < width && 0 <= j' < height ==>
                 && 0.0 <= h[i][j] <= 255.0
                 && (Heat(images, i, j) <= Heat(images, i', j') <==> h[i][j] <= h[i'][j'])
  {
    forall i, j | 0 <= i < width && 0 <= j < height
      ensures HeatGrid(width, height, images)[i][j] >= 0.0
    {
      HeatBounds(images, i, j);
    }
    HeatmapShape(HeatGrid(width, height, images), width, height);
  }

  // ---- the map on the pixels themselves ---------------------------------------------------

  /** A thousand times the brightness, on the scale 0..255,000, summed over the pictures. */
  function Luma(images: seq<Image>, i: nat, j: nat): nat {
    if images == [] then 0
    else
      var image := images[|images| - 1];
      Luma(images[..|images| - 1], i, j)
      + if i < image.rows && j < image.cols
        then 299 * image.pixels[i][j].r + 587 * image.pixels[i][j].g + 114 * image.pixels[i][j].b else 0
  }

  lemma GrayWeights(p: RGB)
    ensures 255_000.0 * Gray(p) == (299 * p.r + 587 * p.g + 114 * p.b) as real
  {
  }

  lemma {:induction false} HeatIsLuma(images: seq<Image>, i: nat, j: nat)
    ensures 255_000.0 * Heat(images, i, j) == Luma(images, i, j) as real
  {
    if images != [] {
      var image := images[|images| - 1];
      HeatIsLuma(images[..|images| - 1], i, j);
      if i < image.rows && j < image.cols {
        GrayWeights(image.pixels[i][j]);
      }
    }
  }

  lemma MapCell(g: Grid, i: nat, j: nat)
    requires GetHeatmap(g).Some? && i < |g| && j < |g[i]|
    ensures i < |GetHeatmap(g).value| && j < |GetHeatmap(g).value[i]|
    ensures GetHeatmap(g).value[i][j] == if GridMax(g) == 0.0 then g[i][j] else Scaled(g[i][j], GridMax(g))
  {
  }

  /** Scaling keeps proportions, whatever the unit. */
  lemma ScaledProportion(x: real, max: real, k: real)
    requires max != 0.0
    ensures Scaled(x, max) * (k * max) == 255.0 * (k * x)
  {
    var q := x / max;
    assert q * max == x;
    Swap(q * 255.0, k, max);
    assert (q * 255.0) * max == 255.0 * (q * max);
  }

  lemma Swap(y: real, k: real, max: real)
    ensures y * (k * max) == k * (y * max)
  {
  }

  /** The brightest cell of a buffer. */
  lemma Brightest(width: nat, height: nat, images: seq<Image>) returns (a: nat, b: nat)
    requires width > 0 && height > 0
    ensures a < width && b < height && Heat(images, a, b) == GridMax(HeatGrid(width, height, images))
    ensures forall i: nat, j: nat :: i < width && j < height ==> Heat(images, i, j) <= Heat(images, a, b)
    ensures forall i: nat, j: nat :: i < width && j < height ==> Luma(images, i, j) <= Luma(images, a, b)
  {
    var g := HeatGrid(width, height, images);
    a, b :| 0 <= a < width && 0 <= b < |g[a]| && g[a][b] == GridMax(g);
    HeatIsLuma(images, a, b);
    hide Heat, Luma, GridMax;
    forall i: nat, j: nat | i < width && j < height
      ensures Heat(images, i, j) <= Heat(images, a, b) && Luma(images, i, j) <= Luma(images, a, b)
    {
      HeatIsLuma(images, i, j);
      assert g[i][j] <= GridMax(g);
    }
  }

  /** The brightest cell shows as 255 and this one in proportion; without any light all cells are 0. */
  predicate InProportion(shown: real, luma: nat, maxLuma: nat) {
    if maxLuma == 0 then shown == 0.0 else shown * maxLuma as real == 255.0 * luma as real
  }

  lemma Proportion(x: real, max: real, luma: nat, maxLuma: nat)
    requires 255_000.0 * x == luma as real && 255_000.0 * max == maxLuma as real && luma <= maxLuma
    ensures (maxLuma == 0 <==> max == 0.0) && (maxLuma == 0 ==> x == 0.0)
    ensures InProportion(if max == 0.0 then x else Scaled(x, max), luma, maxLuma)
  {
    if maxLuma > 0 {
      ScaledProportion(x, max, 255_000.0);
    }
  }

  lemma CellIsLuma(width: nat, height: nat, images: seq<Image>, a: nat, b: nat, i: nat, j: nat)
    requires a < width && b < height && i < width && j < height
    requires Heat(images, a, b) == GridMax(HeatGrid(width, height, images))
    requires GetHeatmap(HeatGrid(width, height, images)).Some?
    requires Luma(images, i, j) <= Luma(images, a, b)
    ensures var h := GetHeatmap(HeatGrid(width, height, images)).value;
            && i < |h| && j < |h[i]|
            && InProportion(h[i][j], Luma(images, i, j), Luma(images, a, b))
  {
    hide Heat, Luma, GridMax, GetHeatmap, Scaled, InProportion;
    var g := HeatGrid(width, height, images);
    MapCell(g, i, j);
    HeatIsLuma(images, a, b);
    HeatIsLuma(images, i, j);
    Proportion(g[i][j], GridMax(g), Luma(images, i, j), Luma(images, a, b));
  }

  /** What a client sees, on the pixels themselves: the brightest cell (a, b) of the session shows as
      255 and every other cell in proportion; if nothing is bright at all the map is zero. */
  lemma AnswerIsLuma(width: nat, height: nat, images: seq<Image>) returns (a: nat, b: nat)
    requires width > 0 && height > 0
    ensures a < width && b < height
    ensures forall i: nat, j: nat :: i < width && j < height ==> Luma(images, i, j) <= Luma(images, a, b)
    ensures GetHeatmap(HeatGrid(width, height, images)).Some?
    ensures var h := GetHeatmap(HeatGrid(width, height, images)).value;
            && Rectangle(h, width, height)
            && forall i: nat, j: nat :: i < width && j < height ==>
                 InProportion(h[i][j], Luma(images, i, j), Luma(images, a, b))
  {
    hide Heat, Luma, GridMax, GetHeatmap, HeatGrid, InProportion;
    AnswerRanksHeat(width, height, images);
    a, b := Brightest(width, height, images);
    forall i: nat, j: nat | i < width && j < height
      ensures var h := GetHeatmap(HeatGrid(width, height, images)).value;
              InProportion(h[i][j], Luma(images, i, j), Luma(images, a, b))
    {
      CellIsLuma(width, height, images, a, b, i, j);
    }
  }

  lemma LumaOfOne(image: Image, i: nat, j: nat)
    ensures Luma([image], i, j) ==
            if i < image.rows && j < image.cols
            then 299 * image.pixels[i][j].r + 587 * image.pixels[i][j].g + 114 * image.pixels[i][j].b else 0
  {
    assert [image][..0] == [];
  }

  /** In a session of one picture with a white pixel in view, every cell shows the perceived
      brightness of its own pixel, and cells outside the picture show nothing. */
  lemma BesideWhite(width: nat, height: nat, image: Image, a: nat, b: nat, i: nat, j: nat)
    requires a < width && b < height && a < image.rows && b < image.cols && image.pixels[a][b] == RGB(255, 255, 255)
    requires i < width && j < height
    ensures GetHeatmap(HeatGrid(width, height, [image])).Some?
    ensures var h := GetHeatmap(HeatGrid(width, height, [image])).value;
            && i < |h| && j < |h[i]|
            && 1_000.0 * h[i][j] ==
               if i < image.rows && j < image.cols
               then (299 * image.pixels[i][j].r + 587 * image.pixels[i][j].g + 114 * image.pixels[i][j].b) as real
               else 0.0
  {
    hide GetHeatmap, HeatGrid, Luma;
    var x, y := AnswerIsLuma(width, height, [image]);
    LumaOfOne(image, x, y);
    LumaOfOne(image, a, b);
    LumaOfOne(image, i, j);
    assert Luma([image], x, y) == 255_000;
  }

  /** A buffer without cells has no map, and every other buffer has one. */
  lemma NoMapWithoutCells(width: nat, height: nat, images: seq<Image>)
    ensures GetHeatmap(HeatGrid(width, height, images)).None? <==> width == 0 || height == 0
  {
    var g := HeatGrid(width, height, images);
    if width > 0 && height == 0 {
      assert g[0] == [];
    }
  }

  /** A heatmap session: the buffer is allocated once and updated in place. */
  class HIContext {
    const width: nat
    const height: nat
    const buffer: array2<real>
    ghost var images: seq<Image>

    ghost predicate Valid()
      reads this, buffer
    {
      && buffer.Length0 == width && buffer.Length1 == height
      && forall i, j :: 0 <= i < width && 0 <= j < height ==> buffer[i, j] == Heat(images, i, j)
    }

    constructor (width: nat, height: nat)
      ensures Valid() && fresh(buffer)
      ensures this.width == width && this.height == height && images == []
    {
      this.width, this.height := width, height;
      buffer := new real[width, height]((i, j) => 0.0);
      images := [];
    }

    /** The in-place update of the top left corner that buffer and picture share. */
    method Accumulate(image: Image)
      requires Valid()
      modifies this, buffer
      ensures Valid() && images == old(images) + [image]
    {
      var rows := if width < image.rows then width else image.rows;
      var cols := if height < image.cols then height else image.cols;
      forall i, j | 0 <= i < rows && 0 <= j < cols {
        buffer[i, j] := buffer[i, j] + Gray(image.pixels[i][j]);
      }
      images := images + [image];
      assert images[..|images| - 1] == old(images);
    }

    method Snapshot() returns (grid: Grid)
      requires Valid()
      ensures grid == HeatGrid(width, height, images)
    {
      grid := seq(width, i requires 0 <= i < width && Valid() reads this, buffer =>
        seq(height, j requires 0 <= j < height && Valid() reads this, buffer => buffer[i, j]));
      ghost var wanted := HeatGrid(width, height, images);
      forall i | 0 <= i < width ensures grid[i] == wanted[i] {
      }
    }
  }
}
