/** Decoded RGB pictures, as the processors see them after Pillow has decoded the request. */
module Pictures {
  type Byte = x: int | 0 <= x < 256

  datatype RGB = RGB(r: Byte, g: Byte, b: Byte) {
    function Channel(c: nat): Byte
      requires c < 3
    {
      if c == 0 then r else if c == 1 then g else b
    }
  }

  /** A picture is a rectangle of pixels: `rows` lines of `cols` pixels each. */
  datatype Raster = Raster(rows: nat, cols: nat, pixels: seq<seq<RGB>>) {
    predicate Rectangular() {
      |pixels| == rows && forall i :: 0 <= i < rows ==> |pixels[i]| == cols
    }
  }

  type Image = r: Raster | r.Rectangular() witness Raster(0, 0, [])

  /** Does the picture have a pixel at row i, column j? */
  predicate Covers(image: Image, i: nat, j: nat) {
    i < image.rows && j < image.cols
  }

  /** The number of pictures that have a pixel at (i, j). */
  function Coverage(images: seq<Image>, i: nat, j: nat): nat {
    if images == [] then 0
    else Coverage(images[..|images| - 1], i, j) + (if Covers(images[|images| - 1], i, j) then 1 else 0)
  }

  /** One more picture counts at exactly the rows and columns it has. */
  lemma CoverageNext(images: seq<Image>, image: Image, i: nat, j: nat)
    ensures Coverage([], i, j) == 0
    ensures Coverage(images + [image], i, j)
            == Coverage(images, i, j) + if i < image.rows && j < image.cols then 1 else 0
  {
    assert (images + [image])[..|images|] == images;
  }
}
