/** The immutable level table and the lookup of a level's ground platform. */
module Levels {
  import opened Options
  import opened Geometry

  /** The y coordinate that marks a platform as the ground. */
  const GroundY: real := 380.0

  /** The portal is a 30-by-30 box anchored at its top-left corner. */
  const PortalSize: real := 30.0

  datatype Level = Level(portal: Point, spikes: seq<Rect>, platforms: seq<Rect>)

  /** The three hand-authored levels, in play order. */
  const Table: seq<Level> := [
    // Level 1: horizontal run
    Level(
      Point(1600.0, 350.0),
      [ Rect(400.0, 380.0 - 20.0, 20.0, 20.0),
        Rect(800.0, 380.0 - 20.0, 20.0, 20.0),
        Rect(1200.0, 380.0 - 20.0, 20.0, 20.0) ],
      [ Rect(0.0, 380.0, 2000.0, 20.0),
        Rect(200.0, 280.0, 200.0, 20.0),
        Rect(500.0, 200.0, 200.0, 20.0),
        Rect(800.0, 300.0, 200.0, 20.0),
        Rect(1100.0, 250.0, 200.0, 20.0) ]),
    // Level 2: vertical climb
    Level(
      Point(400.0, 50.0),
      [ Rect(300.0, 380.0 - 20.0, 20.0, 20.0),
        Rect(500.0, 280.0 - 20.0, 20.0, 20.0),
        Rect(200.0, 160.0 - 20.0, 20.0, 20.0) ],
      [ Rect(0.0, 380.0, 800.0, 20.0),
        Rect(150.0, 320.0, 100.0, 20.0),
        Rect(300.0, 280.0, 100.0, 20.0),
        Rect(150.0, 240.0, 100.0, 20.0),
        Rect(300.0, 200.0, 100.0, 20.0),
        Rect(150.0, 160.0, 100.0, 20.0),
        Rect(300.0, 120.0, 100.0, 20.0),
        Rect(350.0, 80.0, 150.0, 20.0) ]),
    // Level 3: combined
    Level(
      Point(1800.0, 100.0),
      [ Rect(400.0, 380.0 - 20.0, 20.0, 20.0),
        Rect(800.0, 150.0 - 20.0, 20.0, 20.0),
        Rect(1200.0, 150.0 - 20.0, 20.0, 20.0),
        Rect(1600.0, 150.0 - 20.0, 20.0, 20.0) ],
      [ Rect(0.0, 380.0, 2000.0, 20.0),
        Rect(200.0, 300.0, 150.0, 20.0),
        Rect(400.0, 250.0, 150.0, 20.0),
        Rect(600.0, 200.0, 150.0, 20.0),
        Rect(800.0, 150.0, 150.0, 20.0),
        Rect(1000.0, 150.0, 400.0, 20.0),
        Rect(1500.0, 150.0, 400.0, 20.0),
        Rect(100.0, 320.0, 80.0, 20.0),
        Rect(100.0, 260.0, 80.0, 20.0),
        Rect(100.0, 200.0, 80.0, 20.0) ])
  ]

  /** `platforms.find(p => p.y === 380)`, as an index: the FIRST platform at ground height, or none. */
  function FirstGround(ps: seq<Rect>): (r: Option<nat>)
    ensures r.Some? ==> r.value < |ps| && ps[r.value].y == GroundY
    ensures r.Some? ==> forall j :: 0 <= j < r.value ==> ps[j].y != GroundY
    ensures r.None? <==> forall j :: 0 <= j < |ps| ==> ps[j].y != GroundY
  {
    if ps == [] then None
    else if ps[0].y == GroundY then Some(0)
    else match FirstGround(ps[1..])
      case None => None
      case Some(i) => Some(i + 1)
  }

  predicate HasGround(ps: seq<Rect>) {
    FirstGround(ps).Some?
  }

  /** The platform that `find` returns. */
  function Ground(ps: seq<Rect>): (g: Rect)
    requires HasGround(ps)
    ensures g in ps && g.y == GroundY
  {
    ps[FirstGround(ps).value]
  }

  /** Every shipped level has its ground first, starting at x = 0 and at least 800 pixels wide. */
  lemma TableGrounds()
    ensures |Table| == 3
    ensures forall i :: 0 <= i < |Table| ==>
      FirstGround(Table[i].platforms) == Some(0) &&
      Ground(Table[i].platforms).x == 0.0 && Ground(Table[i].platforms).width >= 800.0
  {
  }
}
