/** The summary processor: every picture of a session is added, clipped, to one binary32 buffer. */
module SummaryImage {
  import opened Pictures

  /** 2^24: binary32 has 24 bits of precision, so it holds every integer up to here exactly
      (section 3.3 of IEEE 754-2019). */
  const PRECISION: nat := 0x100_0000

  /** The distance between neighbouring binary32 numbers around the integer x. */
  function Spacing(x: nat): (u: nat)
    ensures u >= 1
    ensures x < PRECISION ==> u == 1
  {
    if x < PRECISION then 1 else 2 * Spacing(x / 2)
  }

  /** The integer x rounded to binary32, to nearest with ties to even. */
  function Round32(x: nat): nat {
    var u := Spacing(x);
    var q, r := x / u, x % u;
    if 2 * r < u || (2 * r == u && q % 2 == 0) then q * u else (q + 1) * u
  }

  /** What the buffer cell (i, j, c) holds after the pictures were added one by one in binary32. */
  function StoredSum(images: seq<Image>, i: nat, j: nat, c: nat): nat
    requires c < 3
  {
    if images == [] then 0
    else
      var before := StoredSum(images[..|images| - 1], i, j, c);
      var last := images[|images| - 1];
      if Covers(last, i, j) then Round32(before + last.pixels[i][j].Channel(c)) else before
  }

  /** The true sum of channel c over exactly the pictures that cover (i, j). */
  function TrueSum(images: seq<Image>, i: nat, j: nat, c: nat): nat
    requires c < 3
  {
    if images == [] then 0
    else TrueSum(images[..|images| - 1], i, j, c) + Share(images[|images| - 1], i, j, c)
  }

  function Share(image: Image, i: nat, j: nat, c: nat): Byte
    requires c < 3
  {
    if Covers(image, i, j) then image.pixels[i][j].Channel(c) else 0
  }

  /** Below 2^24 rounding to binary32 changes nothing. */
  lemma RoundExact(x: nat)
    requires x <= PRECISION
    ensures Round32(x) == x
  {
    if x == PRECISION {
      assert Spacing(PRECISION / 2) == 1;
      assert Spacing(PRECISION) == 2;
    }
  }

  /** There are between 2^23 and 2^24 spacings in a number beyond 2^24: 24 significant bits. */
  lemma {:induction false} SpacingExact(x: nat)
    requires x >= PRECISION
    ensures 8_388_608 * Spacing(x) <= x < 16_777_216 * Spacing(x)
  {
    if x / 2 >= PRECISION {
      SpacingExact(x / 2);
    }
  }

  lemma Within(u: nat, q: nat, m: nat)
    requires u > 0
    ensures m <= q ==> m * u <= q * u
    ensures m > q ==> m * u >= q * u + u
  {
    if m > q {
      assert m * u == (q + 1) * u + (m - q - 1) * u;
    }
  }

  function Distance(x: nat, y: nat): nat {
    if y < x then x - y else y - x
  }

  /** With p the multiple of u below x and s any multiple, compared on the products only. */
  lemma NearestOf(x: nat, p: nat, r: nat, u: nat, up: bool, s: nat)
    requires x == p + r && r < u && (s <= p || s >= p + u)
    requires if up then 2 * r >= u else 2 * r <= u
    ensures var y := if up then p + u else p;
            Distance(x, y) <= Distance(x, s) && (2 * Distance(x, y) == u ==> 2 * r == u)
  {
  }

  lemma Divide(x: nat, u: nat) returns (q: nat, r: nat)
    requires u > 0
    ensures q == x / u && r == x % u && x == q * u + r && r < u
  {
    q, r := x / u, x % u;
  }

  lemma RoundIs(x: nat, q: nat, r: nat)
    requires q == x / Spacing(x) && r == x % Spacing(x)
    ensures Round32(x) == if 2 * r < Spacing(x) || (2 * r == Spacing(x) && q % 2 == 0) then q * Spacing(x)
                          else (q + 1) * Spacing(x)
  {
    hide Spacing;
  }

  /** What rounding does, without division: x is low spacings and a rest. */
  lemma Split(x: nat) returns (low: nat, rest: nat)
    ensures rest < Spacing(x) && x == low * Spacing(x) + rest
    ensures Round32(x) == if 2 * rest < Spacing(x) || (2 * rest == Spacing(x) && low % 2 == 0) then low * Spacing(x)
                          else low * Spacing(x) + Spacing(x)
  {
    hide Spacing, Round32;
    low, rest := Divide(x, Spacing(x));
    RoundIs(x, low, rest);
    Next(low, Spacing(x));
  }

  lemma Next(q: nat, u: nat)
    ensures (q + 1) * u == q * u + u
  {
  }

  /** Rounding gives a number of 24 bits, none is nearer, and of two that are equally near it takes the
      even one. */
  lemma RoundNearest(x: nat, m: nat) returns (q: nat)
    ensures Round32(x) == q * Spacing(x)
    ensures Distance(x, Round32(x)) <= Distance(x, m * Spacing(x))
    ensures 2 * Distance(x, Round32(x)) == Spacing(x) ==> q % 2 == 0
  {
    hide Spacing, Round32, Distance;
    var u := Spacing(x);
    var low, rest := Split(x);
    var up := !(2 * rest < u || (2 * rest == u && low % 2 == 0));
    q := if up then low + 1 else low;
    Within(u, low, m);
    Next(low, u);
    NearestOf(x, low * u, rest, u, up, m * u);
  }

  lemma {:induction false} TrueSumBound(images: seq<Image>, i: nat, j: nat, c: nat)
    requires c < 3
    ensures TrueSum(images, i, j, c) <= 255 * Coverage(images, i, j)
  {
    if images != [] {
      TrueSumBound(images[..|images| - 1], i, j, c);
    }
  }

  /** While at most 65,793 pictures cover a cell, the cell holds the true sum. */
  lemma {:induction false} StoredSumExact(images: seq<Image>, i: nat, j: nat, c: nat)
    requires c < 3 && Coverage(images, i, j) <= 65_793
    ensures StoredSum(images, i, j, c) == TrueSum(images, i, j, c)
  {
    if images != [] {
      StoredSumExact(images[..|images| - 1], i, j, c);
      TrueSumBound(images, i, j, c);
      RoundExact(TrueSum(images, i, j, c));
    }
  }

  function Solid(level: Byte): Image {
    Raster(1, 1, [[RGB(level, level, level)]])
  }

  function Copies(image: Image, n: nat): (s: seq<Image>)
    ensures |s| == n
  {
    if n == 0 then [] else Copies(image, n - 1) + [image]
  }

  lemma {:induction false} WhiteCopies(n: nat)
    ensures TrueSum(Copies(Solid(255), n), 0, 0, 0) == 255 * n
    ensures Coverage(Copies(Solid(255), n), 0, 0) == n
  {
    if n > 0 {
      WhiteCopies(n - 1);
      var s := Copies(Solid(255), n);
      assert s[..|s| - 1] == Copies(Solid(255), n - 1);
    }
  }

  lemma {:induction false} AppendBlack(images: seq<Image>, n: nat)
    ensures var s := images + Copies(Solid(0), n);
            && TrueSum(s, 0, 0, 0) == TrueSum(images, 0, 0, 0)
            && Coverage(s, 0, 0) == Coverage(images, 0, 0) + n
            && (StoredSum(images, 0, 0, 0) == PRECISION ==> StoredSum(s, 0, 0, 0) == PRECISION)
  {
    var s := images + Copies(Solid(0), n);
    if n == 0 {
      assert s == images;
    } else {
      AppendBlack(images, n - 1);
      assert s[..|s| - 1] == images + Copies(Solid(0), n - 1);
      RoundExact(PRECISION);
    }
  }

  /** The first count of pictures at which a sum can be lost: 65,793 white pictures reach 2^24 - 1,
      and a picture of level 2 then asks for 2^24 + 1, which binary32 does not have. */
  lemma FirstLoss() returns (images: seq<Image>)
    ensures Coverage(images, 0, 0) == 65_794
    ensures StoredSum(images, 0, 0, 0) == PRECISION
    ensures TrueSum(images, 0, 0, 0) == PRECISION + 1
  {
    var white := Copies(Solid(255), 65_793);
    WhiteCopies(65_793);
    StoredSumExact(white, 0, 0, 0);
    images := white + [Solid(2)];
    assert images[..|images| - 1] == white;
    assert Spacing(PRECISION / 2) == 1;
    assert Spacing(PRECISION + 1) == 2;
  }

  /** The exact reach of the binary32 buffer: k covering pictures are summed exactly, whatever the
      pictures are, if and only if k is at most 65,793. */
  lemma ExactReach(k: nat)
    ensures k <= 65_793 <==>
            forall images: seq<Image>, i: nat, j: nat, c: nat ::
              c < 3 && Coverage(images, i, j) == k ==> StoredSum(images, i, j, c) == TrueSum(images, i, j, c)
  {
    if k <= 65_793 {
      forall images: seq<Image>, i: nat, j: nat, c: nat | c < 3 && Coverage(images, i, j) == k
        ensures StoredSum(images, i, j, c) == TrueSum(images, i, j, c)
      {
        StoredSumExact(images, i, j, c);
      }
    } else {
      var lossy := FirstLoss();
      AppendBlack(lossy, k - 65_794);
      var images := lossy + Copies(Solid(0), k - 65_794);
      assert Coverage(images, 0, 0) == k && StoredSum(images, 0, 0, 0) != TrueSum(images, 0, 0, 0);
    }
  }

  lemma {:induction false} TrueSumConcat(a: seq<Image>, b: seq<Image>, i: nat, j: nat, c: nat)
    requires c < 3
    ensures TrueSum(a + b, i, j, c) == TrueSum(a, i, j, c) + TrueSum(b, i, j, c)
  {
    if b == [] {
      assert a + b == a;
    } else {
      TrueSumConcat(a, b[..|b| - 1], i, j, c);
      assert (a + b)[..|a + b| - 1] == a + b[..|b| - 1];
    }
  }

  lemma TrueSumWithout(s: seq<Image>, k: nat, i: nat, j: nat, c: nat)
    requires c < 3 && k < |s|
    ensures TrueSum(s, i, j, c) == TrueSum(s[..k] + s[k + 1..], i, j, c) + Share(s[k], i, j, c)
  {
    assert s == s[..k + 1] + s[k + 1..];
    TrueSumConcat(s[..k + 1], s[k + 1..], i, j, c);
    TrueSumConcat(s[..k], s[k + 1..], i, j, c);
    assert s[..k + 1][..k] == s[..k];
  }

  lemma MultisetWithout<T>(s: seq<T>, k: nat)
    requires k < |s|
    ensures multiset(s[..k] + s[k + 1..]) == multiset(s) - multiset{s[k]}
  {
    assert s == s[..k] + [s[k]] + s[k + 1..];
  }

  /** An element can be taken out of both of two sequences with the same elements. */
  lemma SameElement<T>(a: seq<T>, b: seq<T>, n: nat) returns (k: nat)
    requires multiset(a) == multiset(b) && n + 1 == |a|
    ensures k < |b| && b[k] == a[n] && multiset(a[..n]) == multiset(b[..k] + b[k + 1..])
  {
    assert a[n] in multiset(b);
    k :| 0 <= k < |b| && b[k] == a[n];
    MultisetWithout(a, n);
    MultisetWithout(b, k);
    assert a[..n] + a[n + 1..] == a[..n];
  }

  /** The order in which the pictures arrive does not matter. */
  lemma {:induction false} TrueSumOrderFree(a: seq<Image>, b: seq<Image>, i: nat, j: nat, c: nat)
    requires c < 3 && multiset(a) == multiset(b)
    ensures TrueSum(a, i, j, c) == TrueSum(b, i, j, c)
    decreases |a|
  {
    if a == [] {
      assert |b| == |multiset(b)| == 0;
    } else {
      var n := |a| - 1;
      var k := SameElement(a, b, n);
      TrueSumOrderFree(a[..n], b[..k] + b[k + 1..], i, j, c);
      TrueSumWithout(b, k, i, j, c);
    }
  }

  /** The picture a session returns when it is cleared: width x height cells of three sums. */
  function Summary(width: nat, height: nat, images: seq<Image>): seq<seq<seq<nat>>> {
    seq(width, i requires 0 <= i < width =>
      seq(height, j requires 0 <= j < height =>
        seq(3, c requires 0 <= c < 3 => StoredSum(images, i, j, c))))
  }

  /** One more picture adds its red, green and blue to exactly the cells it has a pixel for. */
  lemma TrueSumNext(images: seq<Image>, image: Image, i: nat, j: nat)
    ensures TrueSum([], i, j, 0) == TrueSum([], i, j, 1) == TrueSum([], i, j, 2) == 0
    ensures var next, inside := images + [image], i < image.rows && j < image.cols;
            && TrueSum(next, i, j, 0) == TrueSum(images, i, j, 0) + (if inside then image.pixels[i][j].r else 0)
            && TrueSum(next, i, j, 1) == TrueSum(images, i, j, 1) + (if inside then image.pixels[i][j].g else 0)
            && TrueSum(next, i, j, 2) == TrueSum(images, i, j, 2) + (if inside then image.pixels[i][j].b else 0)
  {
    assert (images + [image])[..|images|] == images;
  }

  /** The summary of one picture is its top left corner, in red, green and blue, on black. */
  lemma OnePicture(width: nat, height: nat, image: Image, i: nat, j: nat)
    requires i < width && j < height
    ensures Summary(width, height, [image])[i][j] ==
            if i < image.rows && j < image.cols
            then [image.pixels[i][j].r, image.pixels[i][j].g, image.pixels[i][j].b] else [0, 0, 0]
  {
    CoverageNext([], image, i, j);
    TrueSumNext([], image, i, j);
    assert [] + [image] == [image];
    forall c: nat | c < 3 ensures Summary(width, height, [image])[i][j][c] == TrueSum([image], i, j, c) {
      StoredSumExact([image], i, j, c);
    }
  }

  /** A summary session: the buffer is allocated once and updated in place. */
  class SIContext {
    const width: nat
    const height: nat
    const buffer: array3<nat>
    ghost var images: seq<Image>

    ghost predicate Valid()
      reads this, buffer
    {
      && buffer.Length0 == width && buffer.Length1 == height && buffer.Length2 == 3
      && forall i, j, c :: 0 <= i < width && 0 <= j < height && 0 <= c < 3 ==>
           buffer[i, j, c] == StoredSum(images, i, j, c)
    }

    constructor (width: nat, height: nat)
      ensures Valid() && fresh(buffer)
      ensures this.width == width && this.height == height && images == []
    {
      this.width, this.height := width, height;
      buffer := new nat[width, height, 3]((i, j, c) => 0);
      images := [];
    }

    /** The in-place update of the top left corner that buffer and picture share. */
    method Accumulate(image: Image)
      requires Valid()
      modifies this, buffer
      ensures Valid() && images == old(images) + [image]
    {
      var rows := if width < image.rows then width else image.rows;
      var cols := if height < image.cols then height else image.cols;
      forall i, j, c | 0 <= i < rows && 0 <= j < cols && 0 <= c < 3 {
        buffer[i, j, c] := Round32(buffer[i, j, c] + image.pixels[i][j].Channel(c));
      }
      images := images + [image];
      assert images[..|images| - 1] == old(images);
    }

    /** The buffer as a value, ready to be encoded. */
    method Snapshot() returns (grid: seq<seq<seq<nat>>>)
      requires Valid()
      ensures grid == Summary(width, height, images)
    {
      grid := seq(width, i requires 0 <= i < width && Valid() reads this, buffer =>
        seq(height, j requires 0 <= j < height && Valid() reads this, buffer =>
          seq(3, c requires 0 <= c < 3 && Valid() reads this, buffer => buffer[i, j, c])));
      ghost var wanted := Summary(width, height, images);
      forall i | 0 <= i < width ensures grid[i] == wanted[i] {
        forall j | 0 <= j < height ensures grid[i][j] == wanted[i][j] {
        }
      }
    }
  }
}
