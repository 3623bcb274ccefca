/**
 * One perception tick: threshold the warped camera frame into obstacle, rock
 * and navigable masks, project their pixels onto the world map, paint the
 * map when the rover sits level, and refresh the wall distances and the rock
 * summary the decision step reads.
 */
module Perception {
  import opened Types
  import opened Vision
  import opened RoverState

  // ---------------------------------------------------------------------------
  // Settings of the step

  /** Navigable terrain is at least this bright on every channel. */
  const NavigableLow := Rgb(118, 93, 89)
  /** Rock samples lie within these bounds. */
  const RockLow := Rgb(125, 102, 0)
  const RockHigh := Rgb(204, 185, 78)
  /** Obstacles are at most this bright on every channel. */
  const ObstacleHigh := Rgb(118, 103, 120)
  /** Image pixels per map cell: twice the five-pixel half-width of the warp's destination square. */
  const WorldScale: real := 10.0

  /** Pitch or roll, in degrees, within two degrees of level on either side of the wrap-around. */
  predicate Level(a: real) { a <= 2.0 || a >= 358.0 }

  function NavigableMask(warped: seq<seq<Rgb>>): seq<seq<int>> { ColorThresh(warped, Some(NavigableLow), None) }
  function RockMask(warped: seq<seq<Rgb>>): seq<seq<int>> { ColorThresh(warped, Some(RockLow), Some(RockHigh)) }
  function ObstacleMask(warped: seq<seq<Rgb>>): seq<seq<int>> { ColorThresh(warped, None, Some(ObstacleHigh)) }

  // ---------------------------------------------------------------------------
  // Projections of a mask

  /** The world cell of every rover-centric point, in order. */
  function WorldCells(pts: seq<Point>, pos: Point, yaw: real, worldSize: int,
                      rotate: (Point, real) -> Point): (cells: seq<Cell>)
    ensures |cells| == |pts|
    ensures worldSize >= 1 ==>
      forall k :: 0 <= k < |cells| ==> 0 <= cells[k].x < worldSize && 0 <= cells[k].y < worldSize
  {
    seq(|pts|, k requires 0 <= k < |pts| => PixToWorld(pts[k], pos, yaw, worldSize, WorldScale, rotate))
  }

  /** The cells a mask's pixels land on, for a rover at `pos` facing `yaw`. */
  function Footprint(mask: seq<seq<int>>, pos: Point, yaw: real, worldSize: int,
                     rotate: (Point, real) -> Point): (cells: seq<Cell>)
    ensures |cells| == |Nonzero(mask)|
    ensures worldSize >= 1 ==>
      forall k :: 0 <= k < |cells| ==> 0 <= cells[k].x < worldSize && 0 <= cells[k].y < worldSize
  {
    WorldCells(RoverCoords(mask), pos, yaw, worldSize, rotate)
  }

  function Dists(pts: seq<Point>, polar: Point -> Polar): (r: seq<real>)
    ensures |r| == |pts|
    ensures forall k :: 0 <= k < |pts| ==> r[k] == polar(pts[k]).dist
  {
    seq(|pts|, k requires 0 <= k < |pts| => polar(pts[k]).dist)
  }

  function Angles(pts: seq<Point>, polar: Point -> Polar): (r: seq<real>)
    ensures |r| == |pts|
    ensures forall k :: 0 <= k < |pts| ==> r[k] == polar(pts[k]).angle
  {
    seq(|pts|, k requires 0 <= k < |pts| => polar(pts[k]).angle)
  }

  /** The nearest obstacle pixel within three degrees of `degree`, or `FarAway`. */
  function WallDistance(obstacle: seq<seq<int>>, polar: Point -> Polar, degree: real): (d: real)
    ensures var pts := RoverCoords(obstacle);
      (forall k :: 0 <= k < |pts| ==> !InSector(polar(pts[k]).angle, degree)) ==> d == FarAway
    ensures var pts := RoverCoords(obstacle);
      (exists k :: 0 <= k < |pts| && InSector(polar(pts[k]).angle, degree)) ==>
        exists k :: 0 <= k < |pts| && InSector(polar(pts[k]).angle, degree) && polar(pts[k]).dist == d
    ensures var pts := RoverCoords(obstacle);
      forall k :: 0 <= k < |pts| && InSector(polar(pts[k]).angle, degree) ==> d <= polar(pts[k]).dist
  {
    var pts := RoverCoords(obstacle);
    var dists := Dists(pts, polar);
    var angles := Angles(pts, polar);
    var d := ObjectDistance(dists, angles, degree);
    assert forall k :: 0 <= k < |pts| ==> dists[k] == polar(pts[k]).dist && angles[k] == polar(pts[k]).angle;
    d
  }

  /** Size, mean distance, mean bearing in degrees and mean world cell of the rock pixels. */
  function RockView(rock: seq<seq<int>>, pos: Point, yaw: real, worldSize: int,
                    rotate: (Point, real) -> Point, polar: Point -> Polar): (s: RockSummary)
    ensures s.size == |Nonzero(rock)|
    ensures s.size == 0 <==> s.pos.None?
    ensures s.size == 0 ==> s.dist == 0.0 && s.angle == 0.0
    ensures s.size > 0 ==>
      var pts := RoverCoords(rock);
      var cells := WorldCells(pts, pos, yaw, worldSize, rotate);
      && s.dist == Mean(Dists(pts, polar))
      && s.angle == Mean(Degrees(Angles(pts, polar)))
      && s.pos == Some(Point(Mean(Columns(cells)), Mean(Rows(cells))))
  {
    var pts := RoverCoords(rock);
    SummarizeRock(Dists(pts, polar), Angles(pts, polar), WorldCells(pts, pos, yaw, worldSize, rotate))
  }

  /** With rock pixels in view, the rock position is a point of the map. */
  lemma RockViewOnMap(rock: seq<seq<int>>, pos: Point, yaw: real, worldSize: int,
                      rotate: (Point, real) -> Point, polar: Point -> Polar)
    requires worldSize >= 1 && |Nonzero(rock)| > 0
    ensures var s := RockView(rock, pos, yaw, worldSize, rotate, polar);
      && s.pos.Some?
      && 0.0 <= s.pos.value.x <= (worldSize - 1) as real
      && 0.0 <= s.pos.value.y <= (worldSize - 1) as real
  {
    var pts := RoverCoords(rock);
    RockSummaryBounds(Dists(pts, polar), Angles(pts, polar), WorldCells(pts, pos, yaw, worldSize, rotate), worldSize);
  }

  // ---------------------------------------------------------------------------
  // Painting the map

  /** The three kinds of pixel the step paints. */
  datatype Layer = ObstacleLayer | RockLayer | NavigableLayer

  /** The channel a layer brightens: red, green and blue respectively. */
  function Channel(l: Layer): int {
    match l
    case ObstacleLayer => 0
    case RockLayer => 1
    case NavigableLayer => 2
  }

  /** A layer adds five to its own channel and takes two from each other channel. */
  function LayerDelta(l: Layer, ch: int): (d: int)
    ensures 0 <= ch < 3 ==> (d == 5 <==> ch == Channel(l)) && (d == -2 <==> ch != Channel(l))
  {
    if ch == Channel(l) then 5 else -2
  }

  /** What one painted step adds to channel `ch` of cell `c`: each layer whose
      footprint contains the cell counts once, however many of its pixels land there. */
  function MapDelta(c: Cell, ch: int, obstacle: seq<Cell>, rock: seq<Cell>, navigable: seq<Cell>): (d: int)
    ensures c !in obstacle && c !in rock && c !in navigable ==> d == 0
    ensures 0 <= ch < 3 ==> -4 <= d <= 5
  {
    (if c in obstacle then LayerDelta(ObstacleLayer, ch) else 0)
    + (if c in rock then LayerDelta(RockLayer, ch) else 0)
    + (if c in navigable then LayerDelta(NavigableLayer, ch) else 0)
  }

  /** Over the three channels a layer adds one, so a cell's channel total grows
      by the number of layers that reach it. */
  lemma MapDeltaTotal(c: Cell, obstacle: seq<Cell>, rock: seq<Cell>, navigable: seq<Cell>)
    ensures MapDelta(c, 0, obstacle, rock, navigable) + MapDelta(c, 1, obstacle, rock, navigable)
            + MapDelta(c, 2, obstacle, rock, navigable)
         == (if c in obstacle then 1 else 0) + (if c in rock then 1 else 0) + (if c in navigable then 1 else 0)
  {
  }

  /** A cell reached by a single layer gains on that layer's channel and loses on the other two. */
  lemma SoleLayerWins(c: Cell, obstacle: seq<Cell>, rock: seq<Cell>, navigable: seq<Cell>, l: Layer, ch: int)
    requires 0 <= ch < 3
    requires c in obstacle <==> l == ObstacleLayer
    requires c in rock <==> l == RockLayer
    requires c in navigable <==> l == NavigableLayer
    ensures MapDelta(c, ch, obstacle, rock, navigable) == (if ch == Channel(l) then 5 else -2)
  {
  }

  /** Adds `delta` to channel `ch` of every listed cell. Like a numpy in-place
      add through index arrays, a cell listed several times is changed once. */
  method Accumulate(m: array3<int>, cells: seq<Cell>, ch: int, delta: int)
    requires forall k :: 0 <= k < |cells| ==> 0 <= cells[k].y < m.Length0 && 0 <= cells[k].x < m.Length1
    requires 0 <= ch < m.Length2
    modifies m
    ensures forall y, x, c :: 0 <= y < m.Length0 && 0 <= x < m.Length1 && 0 <= c < m.Length2 ==>
      m[y, x, c] == old(m[y, x, c]) + (if c == ch && Cell(x, y) in cells then delta else 0)
  {
    forall k | 0 <= k < |cells| {
      m[cells[k].y, cells[k].x, ch] := m[cells[k].y, cells[k].x, ch] + delta;
    }
  }

  /** Paints one layer's footprint: three in-place adds, one per channel. */
  method Paint(m: array3<int>, cells: seq<Cell>, l: Layer)
    requires forall k :: 0 <= k < |cells| ==> 0 <= cells[k].y < m.Length0 && 0 <= cells[k].x < m.Length1
    requires m.Length2 == 3
    modifies m
    ensures forall y, x, c :: 0 <= y < m.Length0 && 0 <= x < m.Length1 && 0 <= c < 3 ==>
      m[y, x, c] == old(m[y, x, c]) + (if Cell(x, y) in cells then LayerDelta(l, c) else 0)
  {
    Accumulate(m, cells, 0, LayerDelta(l, 0));
    Accumulate(m, cells, 1, LayerDelta(l, 1));
    Accumulate(m, cells, 2, LayerDelta(l, 2));
  }

  /** Paints the three footprints in the order obstacle, rock, navigable. */
  method PaintMap(m: array3<int>, obstacle: seq<Cell>, rock: seq<Cell>, navigable: seq<Cell>)
    requires forall k :: 0 <= k < |obstacle| ==> 0 <= obstacle[k].y < m.Length0 && 0 <= obstacle[k].x < m.Length1
    requires forall k :: 0 <= k < |rock| ==> 0 <= rock[k].y < m.Length0 && 0 <= rock[k].x < m.Length1
    requires forall k :: 0 <= k < |navigable| ==> 0 <= navigable[k].y < m.Length0 && 0 <= navigable[k].x < m.Length1
    requires m.Length2 == 3
    modifies m
    ensures forall y, x, c :: 0 <= y < m.Length0 && 0 <= x < m.Length1 && 0 <= c < 3 ==>
      m[y, x, c] == old(m[y, x, c]) + MapDelta(Cell(x, y), c, obstacle, rock, navigable)
  {
    Paint(m, obstacle, ObstacleLayer);
    Paint(m, rock, RockLayer);
    Paint(m, navigable, NavigableLayer);
  }

  // ---------------------------------------------------------------------------
  // The step

  /** The sensor summaries one tick writes for the decision step. */
  datatype Sensed = Sensed(front: real, left: real, right: real, rock: RockSummary)

  /** Wall distances straight ahead, 35 degrees left and 35 degrees right, and the rock summary. */
  function Sense(warped: seq<seq<Rgb>>, pos: Point, yaw: real, worldSize: int,
                 rotate: (Point, real) -> Point, polar: Point -> Polar): (s: Sensed)
    ensures var pts := RoverCoords(ObstacleMask(warped));
      && ((forall k :: 0 <= k < |pts| ==> !InSector(polar(pts[k]).angle, 0.0)) ==> s.front == FarAway)
      && ((forall k :: 0 <= k < |pts| ==> !InSector(polar(pts[k]).angle, 35.0)) ==> s.left == FarAway)
      && ((forall k :: 0 <= k < |pts| ==> !InSector(polar(pts[k]).angle, -35.0)) ==> s.right == FarAway)
    ensures s.rock.size == |Nonzero(RockMask(warped))|
    ensures s.rock.size == 0 <==> s.rock.pos.None?
  {
    var obstacle := ObstacleMask(warped);
    Sensed(WallDistance(obstacle, polar, 0.0), WallDistance(obstacle, polar, 35.0),
           WallDistance(obstacle, polar, -35.0),
           RockView(RockMask(warped), pos, yaw, worldSize, rotate, polar))
  }

  /** Everything a tick derives from the frame and the pose: the three
      footprints on the map and the sensor summaries. */
  datatype View = View(obstacle: seq<Cell>, rock: seq<Cell>, navigable: seq<Cell>, sensed: Sensed)

  function Observe(warped: seq<seq<Rgb>>, pos: Point, yaw: real, worldSize: int,
                   rotate: (Point, real) -> Point, polar: Point -> Polar): (v: View)
    ensures worldSize >= 1 ==>
      && (forall k :: 0 <= k < |v.obstacle| ==> 0 <= v.obstacle[k].x < worldSize && 0 <= v.obstacle[k].y < worldSize)
      && (forall k :: 0 <= k < |v.rock| ==> 0 <= v.rock[k].x < worldSize && 0 <= v.rock[k].y < worldSize)
      && (forall k :: 0 <= k < |v.navigable| ==> 0 <= v.navigable[k].x < worldSize && 0 <= v.navigable[k].y < worldSize)
    ensures v.sensed.rock.size == 0 ==> v.sensed.rock.dist == 0.0 && v.sensed.rock.angle == 0.0
  {
    View(Footprint(ObstacleMask(warped), pos, yaw, worldSize, rotate),
         Footprint(RockMask(warped), pos, yaw, worldSize, rotate),
         Footprint(NavigableMask(warped), pos, yaw, worldSize, rotate),
         Sense(warped, pos, yaw, worldSize, rotate, polar))
  }

  /** One perception tick on the warped frame. When the rover is not level
      nothing changes; otherwise every cell in a layer's footprint is painted
      once for that layer and the four summaries are refreshed. */
  method PerceptionStep(rover: Rover, warped: seq<seq<Rgb>>,
                        rotate: (Point, real) -> Point, polar: Point -> Polar)
    requires rover.Valid()
    modifies rover.worldmap, rover`frontWallDistance, rover`leftWallDistance, rover`rightWallDistance
    modifies rover`rockSize, rover`rockDist, rover`rockAngle, rover`rockPos
    ensures !Level(old(rover.pitch)) || !Level(old(rover.roll)) ==>
      unchanged(rover) && unchanged(rover.worldmap)
    ensures Level(old(rover.pitch)) && Level(old(rover.roll)) ==>
      var v := Observe(warped, old(rover.pos), old(rover.yaw), rover.worldmap.Length0, rotate, polar);
      && rover.frontWallDistance == v.sensed.front
      && rover.leftWallDistance == v.sensed.left
      && rover.rightWallDistance == v.sensed.right
      && rover.rockSize == v.sensed.rock.size && rover.rockDist == v.sensed.rock.dist
      && rover.rockAngle == v.sensed.rock.angle && rover.rockPos == v.sensed.rock.pos
      && forall y, x, ch :: 0 <= y < rover.worldmap.Length0 && 0 <= x < rover.worldmap.Length0 && 0 <= ch < 3 ==>
           rover.worldmap[y, x, ch]
             == old(rover.worldmap[y, x, ch]) + MapDelta(Cell(x, y), ch, v.obstacle, v.rock, v.navigable)
  {
    var v := Observe(warped, rover.pos, rover.yaw, rover.worldmap.Length0, rotate, polar);
    if !Level(rover.pitch) || !Level(rover.roll) {
      return;
    }
    Record(rover, v);
  }

  /** Paints the view's footprints and writes its summaries. */
  method Record(rover: Rover, v: View)
    requires forall k :: 0 <= k < |v.obstacle| ==> 0 <= v.obstacle[k].y < rover.worldmap.Length0 && 0 <= v.obstacle[k].x < rover.worldmap.Length1
    requires forall k :: 0 <= k < |v.rock| ==> 0 <= v.rock[k].y < rover.worldmap.Length0 && 0 <= v.rock[k].x < rover.worldmap.Length1
    requires forall k :: 0 <= k < |v.navigable| ==> 0 <= v.navigable[k].y < rover.worldmap.Length0 && 0 <= v.navigable[k].x < rover.worldmap.Length1
    requires rover.worldmap.Length2 == 3
    requires v.sensed.rock.size == 0 ==> v.sensed.rock.dist == 0.0 && v.sensed.rock.angle == 0.0 && v.sensed.rock.pos.None?
    modifies rover.worldmap, rover`frontWallDistance, rover`leftWallDistance, rover`rightWallDistance
    modifies rover`rockSize, rover`rockDist, rover`rockAngle, rover`rockPos
    ensures rover.frontWallDistance == v.sensed.front
      && rover.leftWallDistance == v.sensed.left
      && rover.rightWallDistance == v.sensed.right
      && rover.rockSize == v.sensed.rock.size && rover.rockDist == v.sensed.rock.dist
      && rover.rockAngle == v.sensed.rock.angle && rover.rockPos == v.sensed.rock.pos
    ensures forall y, x, ch :: 0 <= y < rover.worldmap.Length0 && 0 <= x < rover.worldmap.Length1 && 0 <= ch < 3 ==>
           rover.worldmap[y, x, ch]
             == old(rover.worldmap[y, x, ch]) + MapDelta(Cell(x, y), ch, v.obstacle, v.rock, v.navigable)
  {
    PaintMap(rover.worldmap, v.obstacle, v.rock, v.navigable);
    Report(rover, v.sensed);
  }

  /** Writes the wall distances and the rock summary; without rock pixels the
      distance and bearing are zeroed and the position cleared. */
  method Report(rover: Rover, s: Sensed)
    modifies rover`frontWallDistance, rover`leftWallDistance, rover`rightWallDistance
    modifies rover`rockSize, rover`rockDist, rover`rockAngle, rover`rockPos
    ensures rover.frontWallDistance == s.front && rover.leftWallDistance == s.left
    ensures rover.rightWallDistance == s.right && rover.rockSize == s.rock.size
    ensures s.rock.size > 0 ==>
      rover.rockDist == s.rock.dist && rover.rockAngle == s.rock.angle && rover.rockPos == s.rock.pos
    ensures s.rock.size == 0 ==> rover.rockDist == 0.0 && rover.rockAngle == 0.0 && rover.rockPos.None?
  {
    rover.frontWallDistance := s.front;
    rover.leftWallDistance := s.left;
    rover.rightWallDistance := s.right;
    rover.rockSize := s.rock.size;
    if s.rock.size > 0 {
      rover.rockDist, rover.rockAngle, rover.rockPos := s.rock.dist, s.rock.angle, s.rock.pos;
    } else {
      rover.rockDist, rover.rockAngle, rover.rockPos := 0.0, 0.0, None;
    }
  }
}
