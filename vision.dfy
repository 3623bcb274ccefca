/**
 * The array expressions of the perception step, as pure functions: colour
 * thresholding into a 0/1 mask, the non-zero pixels of a mask in row-major
 * order, image-to-rover coordinates, the scale-and-shift into world units,
 * truncation and clipping into the world grid, the sector minimum of polar
 * distances, and the rock summary. The rotation and the polar conversion are
 * trigonometry and enter as function parameters.
 */
module Vision {
  import opened Types

  /** One pixel of the warped camera frame: red, green and blue intensities. */
  datatype Rgb = Rgb(r: int, g: int, b: int)

  /** A pixel position in an image. */
  datatype Pixel = Pixel(row: int, col: int)

  /** A cell of the world map: column `x`, row `y`. */
  datatype Cell = Cell(x: int, y: int)

  /** The polar form of a rover-centric point: distance and angle in radians. */
  datatype Polar = Polar(dist: real, angle: real)

  // ---------------------------------------------------------------------------
  // Colour thresholding

  predicate AtLeast(p: Rgb, low: Rgb) { p.r >= low.r && p.g >= low.g && p.b >= low.b }
  predicate AtMost(p: Rgb, high: Rgb) { p.r <= high.r && p.g <= high.g && p.b <= high.b }

  /** The per-pixel test, by which bounds are given: above, within, below, or none. */
  predicate Selected(p: Rgb, low: Option<Rgb>, high: Option<Rgb>) {
    if low.Some? then
      if high.None? then AtLeast(p, low.value) else AtLeast(p, low.value) && AtMost(p, high.value)
    else if high.Some? then AtMost(p, high.value)
    else false
  }

  /** A mask of the image's shape: 1 where the pixel passes the given bounds, 0 elsewhere. */
  function ColorThresh(img: seq<seq<Rgb>>, low: Option<Rgb>, high: Option<Rgb>): (mask: seq<seq<int>>)
    ensures |mask| == |img|
    ensures forall y :: 0 <= y < |img| ==> |mask[y]| == |img[y]|
    ensures forall y, x :: 0 <= y < |img| && 0 <= x < |img[y]| ==> mask[y][x] == 0 || mask[y][x] == 1
    ensures low.Some? && high.None? ==>
      forall y, x :: 0 <= y < |img| && 0 <= x < |img[y]| ==>
        (mask[y][x] == 1 <==>
           img[y][x].r >= low.value.r && img[y][x].g >= low.value.g && img[y][x].b >= low.value.b)
    ensures low.Some? && high.Some? ==>
      forall y, x :: 0 <= y < |img| && 0 <= x < |img[y]| ==>
        (mask[y][x] == 1 <==>
           low.value.r <= img[y][x].r <= high.value.r &&
           low.value.g <= img[y][x].g <= high.value.g &&
           low.value.b <= img[y][x].b <= high.value.b)
    ensures low.None? && high.Some? ==>
      forall y, x :: 0 <= y < |img| && 0 <= x < |img[y]| ==>
        (mask[y][x] == 1 <==>
           img[y][x].r <= high.value.r && img[y][x].g <= high.value.g && img[y][x].b <= high.value.b)
    ensures low.None? && high.None? ==>
      forall y, x :: 0 <= y < |img| && 0 <= x < |img[y]| ==> mask[y][x] == 0
  {
    seq(|img|, y requires 0 <= y < |img| =>
      seq(|img[y]|, x requires 0 <= x < |img[y]| => if Selected(img[y][x], low, high) then 1 else 0))
  }

  /** The navigable terrain and obstacle masks overlap only where the red channel is exactly 118. */
  lemma TerrainMasksOverlapOnlyAtRed118(img: seq<seq<Rgb>>, y: int, x: int)
    requires 0 <= y < |img| && 0 <= x < |img[y]|
    requires ColorThresh(img, Some(Rgb(118, 93, 89)), None)[y][x] == 1
    requires ColorThresh(img, None, Some(Rgb(118, 103, 120)))[y][x] == 1
    ensures img[y][x].r == 118
    ensures 93 <= img[y][x].g <= 103 && 89 <= img[y][x].b <= 120
  {
  }

  // ---------------------------------------------------------------------------
  // Non-zero pixels, in numpy's row-major order

  predicate RowMajorBefore(p: Pixel, q: Pixel) {
    p.row < q.row || (p.row == q.row && p.col < q.col)
  }

  /** The non-zero entries of one mask row, numbered `y`, left to right. */
  function RowNonzero(row: seq<int>, y: int): (r: seq<Pixel>)
    ensures forall p :: p in r <==> p.row == y && 0 <= p.col < |row| && row[p.col] != 0
    ensures forall i :: 0 <= i < |r| ==> r[i].row == y
    ensures forall i, j :: 0 <= i < j < |r| ==> r[i].col < r[j].col
  {
    if |row| == 0 then []
    else
      var last := |row| - 1;
      RowNonzero(row[..last], y) + (if row[last] != 0 then [Pixel(y, last)] else [])
  }

  /** The non-zero pixels of a mask, row by row and left to right within a row. */
  function Nonzero(mask: seq<seq<int>>): (r: seq<Pixel>)
    ensures forall p :: p in r <==>
      0 <= p.row < |mask| && 0 <= p.col < |mask[p.row]| && mask[p.row][p.col] != 0
    ensures forall i :: 0 <= i < |r| ==> 0 <= r[i].row < |mask|
    ensures forall i, j :: 0 <= i < j < |r| ==> RowMajorBefore(r[i], r[j])
  {
    if |mask| == 0 then []
    else
      var last := |mask| - 1;
      var front := Nonzero(mask[..last]);
      var tail := RowNonzero(mask[last], last);
      assert forall i :: 0 <= i < |tail| ==> tail[i].row == last;
      front + tail
  }

  /** Row-major order is strict, so no pixel is listed twice. */
  lemma NonzeroDistinct(mask: seq<seq<int>>)
    ensures var r := Nonzero(mask); forall i, j :: 0 <= i < j < |r| ==> r[i] != r[j]
  {
  }

  // ---------------------------------------------------------------------------
  // Rover-centric coordinates

  /** Forward distance `|row - h|` and leftward offset `-(col - h)`, where `h`
      is the row count of the mask. */
  function RoverPoint(p: Pixel, h: int): (pt: Point)
    ensures 0 <= p.row < h ==> pt.x == (h - p.row) as real && 1.0 <= pt.x <= h as real
    ensures pt.y == (h - p.col) as real
  {
    Point(Abs((p.row - h) as real), -((p.col - h) as real))
  }

  /** The pixel a rover-centric point of a mask with `h` rows came from. */
  function PixelOf(pt: Point, h: int): Pixel {
    Pixel(h - pt.x.Floor, h - pt.y.Floor)
  }

  /** One rover-centric point per non-zero pixel, in the order of `Nonzero`. */
  function RoverCoords(mask: seq<seq<int>>): (pts: seq<Point>)
    ensures |pts| == |Nonzero(mask)|
    ensures forall k :: 0 <= k < |pts| ==> 1.0 <= pts[k].x <= |mask| as real
  {
    var nz := Nonzero(mask);
    seq(|nz|, k requires 0 <= k < |nz| => RoverPoint(nz[k], |mask|))
  }

  /** Each point of `RoverCoords` names its pixel back, and the pixel is non-zero;
      conversely every non-zero pixel appears among the points. */
  lemma RoverCoordsExact(mask: seq<seq<int>>)
    ensures forall k :: 0 <= k < |RoverCoords(mask)| ==>
      var p := PixelOf(RoverCoords(mask)[k], |mask|);
      0 <= p.row < |mask| && 0 <= p.col < |mask[p.row]| && mask[p.row][p.col] != 0 &&
      RoverPoint(p, |mask|) == RoverCoords(mask)[k]
    ensures forall p: Pixel :: 0 <= p.row < |mask| && 0 <= p.col < |mask[p.row]| && mask[p.row][p.col] != 0 ==>
      RoverPoint(p, |mask|) in RoverCoords(mask)
  {
    var nz := Nonzero(mask);
    var pts := RoverCoords(mask);
    forall k | 0 <= k < |pts|
      ensures var p := PixelOf(pts[k], |mask|);
        0 <= p.row < |mask| && 0 <= p.col < |mask[p.row]| && mask[p.row][p.col] != 0 &&
        RoverPoint(p, |mask|) == pts[k]
    {
      assert nz[k] in nz;
      PixelRoundTrip(nz[k], |mask|);
    }
    forall p: Pixel | 0 <= p.row < |mask| && 0 <= p.col < |mask[p.row]| && mask[p.row][p.col] != 0
      ensures RoverPoint(p, |mask|) in pts
    {
      var k :| 0 <= k < |nz| && nz[k] == p;
      assert pts[k] == RoverPoint(p, |mask|);
    }
  }

  /** `PixelOf` inverts `RoverPoint` on the rows of the mask. */
  lemma PixelRoundTrip(p: Pixel, h: int)
    requires 0 <= p.row < h
    ensures PixelOf(RoverPoint(p, h), h) == p
  {
    var pt := RoverPoint(p, h);
    assert pt.x == (h - p.row) as real;
    assert pt.y == (h - p.col) as real;
    assert pt.x.Floor == h - p.row;
    assert pt.y.Floor == h - p.col;
  }

  // ---------------------------------------------------------------------------
  // Into world cells

  /** Scale down by `scale` and shift by the rover position. */
  function TranslatePix(p: Point, pos: Point, scale: real): (t: Point)
    requires scale != 0.0
    ensures (t.x - pos.x) * scale == p.x && (t.y - pos.y) * scale == p.y
  {
    Point(p.x / scale + pos.x, p.y / scale + pos.y)
  }

  /** numpy's cast of a float to an integer: truncation toward zero. */
  function Trunc(v: real): (n: int)
    ensures v >= 0.0 ==> n >= 0 && n as real <= v < n as real + 1.0
    ensures v < 0.0 ==> n <= 0 && n as real - 1.0 < v <= n as real
  {
    if v >= 0.0 then v.Floor else -((-v).Floor)
  }

  /** numpy's clip into `[0, size - 1]`: the upper bound wins when the bounds cross. */
  function ClipIndex(n: int, size: int): (r: int)
    ensures size >= 1 ==> 0 <= r < size
    ensures 0 <= n < size ==> r == n
    ensures n < 0 && size >= 1 ==> r == 0
    ensures n >= size ==> r == size - 1
  {
    var above := if n < 0 then 0 else n;
    if above > size - 1 then size - 1 else above
  }

  /** Rotate by `yaw` (the trigonometry is the `rotate` parameter), scale and
      shift, then truncate and clip into a `worldSize` by `worldSize` grid. */
  function PixToWorld(p: Point, pos: Point, yaw: real, worldSize: int, scale: real,
                      rotate: (Point, real) -> Point): (c: Cell)
    requires scale != 0.0
    ensures worldSize >= 1 ==> 0 <= c.x < worldSize && 0 <= c.y < worldSize
  {
    var t := TranslatePix(rotate(p, yaw), pos, scale);
    Cell(ClipIndex(Trunc(t.x), worldSize), ClipIndex(Trunc(t.y), worldSize))
  }

  /** A point that lands on the map is put in the cell that contains it; one
      that lands beyond an edge is put on that edge. */
  lemma PixToWorldCell(p: Point, pos: Point, yaw: real, worldSize: int, scale: real,
                       rotate: (Point, real) -> Point)
    requires scale != 0.0 && worldSize >= 1
    ensures var t := TranslatePix(rotate(p, yaw), pos, scale);
      var c := PixToWorld(p, pos, yaw, worldSize, scale, rotate);
      && (0.0 <= t.x < worldSize as real ==> c.x as real <= t.x < c.x as real + 1.0)
      && (0.0 <= t.y < worldSize as real ==> c.y as real <= t.y < c.y as real + 1.0)
      && (t.x <= -1.0 ==> c.x == 0) && (t.y <= -1.0 ==> c.y == 0)
      && (t.x >= worldSize as real ==> c.x == worldSize - 1)
      && (t.y >= worldSize as real ==> c.y == worldSize - 1)
  {
    var t := TranslatePix(rotate(p, yaw), pos, scale);
    TruncInRange(t.x, worldSize);
    TruncInRange(t.y, worldSize);
  }

  lemma TruncInRange(v: real, size: int)
    requires size >= 1
    ensures 0.0 <= v < size as real ==> ClipIndex(Trunc(v), size) == Trunc(v) == v.Floor
    ensures v <= -1.0 ==> ClipIndex(Trunc(v), size) == 0
    ensures v >= size as real ==> ClipIndex(Trunc(v), size) == size - 1
  {
    if v >= size as real {
      assert Trunc(v) as real > v - 1.0;
      assert Trunc(v) >= size;
    }
  }

  // ---------------------------------------------------------------------------
  // Sector minimum

  const Pi: real := 3.141592653589793

  /** The distance reported when nothing lies in the sector. */
  const FarAway: real := 9999.0

  /** Within three degrees either side of `degree`, compared in radians. */
  predicate InSector(angle: real, degree: real) {
    (degree - 3.0) / 180.0 * Pi <= angle <= (degree + 3.0) / 180.0 * Pi
  }

  /** The distances of the points whose angle lies in the sector, in order. */
  function SectorDists(dists: seq<real>, angles: seq<real>, degree: real): (r: seq<real>)
    requires |dists| == |angles|
    ensures |r| <= |dists|
    ensures forall d :: d in r <==>
      exists k :: 0 <= k < |dists| && InSector(angles[k], degree) && dists[k] == d
  {
    if |dists| == 0 then []
    else
      var last := |dists| - 1;
      var front := SectorDists(dists[..last], angles[..last], degree);
      assert forall k :: 0 <= k < last ==> dists[..last][k] == dists[k] && angles[..last][k] == angles[k];
      front + (if InSector(angles[last], degree) then [dists[last]] else [])
  }

  function MinOf(s: seq<real>): (m: real)
    requires |s| > 0
    ensures m in s
    ensures forall d :: d in s ==> m <= d
  {
    if |s| == 1 then s[0]
    else
      var rest := MinOf(s[1..]);
      assert forall d :: d in s ==> d == s[0] || d in s[1..];
      if s[0] <= rest then s[0] else rest
  }

  /** The nearest in-sector distance, or `FarAway` when the sector is empty. */
  function ObjectDistance(dists: seq<real>, angles: seq<real>, degree: real): (r: real)
    requires |dists| == |angles|
    ensures (forall k :: 0 <= k < |dists| ==> !InSector(angles[k], degree)) ==> r == FarAway
    ensures (exists k :: 0 <= k < |dists| && InSector(angles[k], degree)) ==>
      (exists k :: 0 <= k < |dists| && InSector(angles[k], degree) && dists[k] == r)
    ensures forall k :: 0 <= k < |dists| && InSector(angles[k], degree) ==> r <= dists[k]
  {
    var distances := SectorDists(dists, angles, degree);
    assert forall k :: 0 <= k < |dists| && InSector(angles[k], degree) ==> dists[k] in distances;
    if |distances| > 0 then MinOf(distances) else FarAway
  }

  // ---------------------------------------------------------------------------
  // Means and the rock summary

  function Sum(s: seq<real>): real {
    if |s| == 0 then 0.0 else Sum(s[..|s| - 1]) + s[|s| - 1]
  }

  /** numpy's `mean`: the sum shared out equally over the entries. */
  function Mean(s: seq<real>): (r: real)
    requires |s| > 0
    ensures r * |s| as real == Sum(s)
  {
    Sum(s) / |s| as real
  }

  lemma {:induction false} SumBounds(s: seq<real>, lo: real, hi: real)
    requires forall k :: 0 <= k < |s| ==> lo <= s[k] <= hi
    ensures |s| as real * lo <= Sum(s) <= |s| as real * hi
    decreases |s|
  {
    if |s| > 0 {
      var front := s[..|s| - 1];
      SumBounds(front, lo, hi);
      assert |s| as real * lo == |front| as real * lo + lo;
      assert |s| as real * hi == |front| as real * hi + hi;
    }
  }

  /** A mean lies between any lower and upper bound of its entries. */
  lemma MeanBounds(s: seq<real>, lo: real, hi: real)
    requires |s| > 0
    requires forall k :: 0 <= k < |s| ==> lo <= s[k] <= hi
    ensures lo <= Mean(s) <= hi
  {
    SumBounds(s, lo, hi);
    var n := |s| as real;
    assert n * lo <= Sum(s) <= n * hi;
    assert Mean(s) * n == Sum(s);
  }

  function Degrees(angles: seq<real>): (r: seq<real>)
    ensures |r| == |angles|
    ensures forall k :: 0 <= k < |r| ==> r[k] == angles[k] * 180.0 / Pi
  {
    seq(|angles|, k requires 0 <= k < |angles| => angles[k] * 180.0 / Pi)
  }

  function Columns(cells: seq<Cell>): (r: seq<real>)
    ensures |r| == |cells|
    ensures forall k :: 0 <= k < |r| ==> r[k] == cells[k].x as real
  {
    seq(|cells|, k requires 0 <= k < |cells| => cells[k].x as real)
  }

  function Rows(cells: seq<Cell>): (r: seq<real>)
    ensures |r| == |cells|
    ensures forall k :: 0 <= k < |r| ==> r[k] == cells[k].y as real
  {
    seq(|cells|, k requires 0 <= k < |cells| => cells[k].y as real)
  }

  /** What the rover keeps about the rock in view. */
  datatype RockSummary = RockSummary(size: nat, dist: real, angle: real, pos: Option<Point>)

  /** The rock summary of the rock points' polar forms and world cells. */
  function SummarizeRock(dists: seq<real>, angles: seq<real>, cells: seq<Cell>): (s: RockSummary)
    requires |dists| == |angles| == |cells|
    ensures s.size == |dists|
    ensures s.size == 0 <==> s.pos.None?
    ensures s.size == 0 ==> s.dist == 0.0 && s.angle == 0.0
    ensures s.size > 0 ==>
      && s.dist == Mean(dists)
      && s.angle == Mean(Degrees(angles))
      && s.pos == Some(Point(Mean(Columns(cells)), Mean(Rows(cells))))
  {
    if |dists| > 0 then
      RockSummary(|dists|, Mean(dists), Mean(Degrees(angles)),
                  Some(Point(Mean(Columns(cells)), Mean(Rows(cells)))))
    else RockSummary(0, 0.0, 0.0, None)
  }

  /** With rocks in view, the summary's distance lies between the nearest and
      farthest rock point, and its position lies on the map the cells lie on. */
  lemma RockSummaryBounds(dists: seq<real>, angles: seq<real>, cells: seq<Cell>, worldSize: int)
    requires |dists| == |angles| == |cells| > 0
    requires forall k :: 0 <= k < |cells| ==> 0 <= cells[k].x < worldSize && 0 <= cells[k].y < worldSize
    ensures var s := SummarizeRock(dists, angles, cells);
      && MinOf(dists) <= s.dist <= MaxOf(dists)
      && MinOf(Degrees(angles)) <= s.angle <= MaxOf(Degrees(angles))
      && s.pos.Some?
      && 0.0 <= s.pos.value.x <= (worldSize - 1) as real
      && 0.0 <= s.pos.value.y <= (worldSize - 1) as real
  {
    forall k | 0 <= k < |dists| ensures MinOf(dists) <= dists[k] <= MaxOf(dists) {
      assert dists[k] in dists;
    }
    MeanBounds(dists, MinOf(dists), MaxOf(dists));
    var degrees := Degrees(angles);
    forall k | 0 <= k < |degrees| ensures MinOf(degrees) <= degrees[k] <= MaxOf(degrees) {
      assert degrees[k] in degrees;
    }
    MeanBounds(degrees, MinOf(degrees), MaxOf(degrees));
    MeanBounds(Columns(cells), 0.0, (worldSize - 1) as real);
    MeanBounds(Rows(cells), 0.0, (worldSize - 1) as real);
  }

  function MaxOf(s: seq<real>): (m: real)
    requires |s| > 0
    ensures m in s
    ensures forall d :: d in s ==> d <= m
  {
    if |s| == 1 then s[0]
    else
      var rest := MaxOf(s[1..]);
      assert forall d :: d in s ==> d == s[0] || d in s[1..];
      if s[0] >= rest then s[0] else rest
  }
}
