/** The player object: its four mutable fields and the in-place `update`. */
module PlayerObject {
  import opened Options
  import opened Geometry
  import opened Levels
  import opened Physics

  class Player {
    var x: real
    var y: real
    var velocityY: real
    var grounded: bool

    /** The fields as a value, for specifications. */
    function State(): Body
      reads this
    {
      Body(x, y, velocityY, grounded)
    }

    constructor ()
      ensures State() == Start
    {
      x, y, velocityY, grounded := 50.0, 350.0, 0.0, true;
    }

    method Reset()
      modifies this
      ensures State() == Start
    {
      x := 50.0;
      y := 350.0;
      velocityY := 0.0;
      grounded := true;
    }

    /**
     * One frame of movement and platform collision. `ok` is false where the
     * source throws because no platform lies at ground height; the fields then
     * hold what was assigned before the throw.
     */
    method Update(keys: Keys, platforms: seq<Rect>) returns (ok: bool)
      modifies this
      ensures ok <==> HasGround(platforms)
      ensures State() == Step(old(State()), keys, platforms).body
    {
      ghost var b0 := State();
      // Movement
      if keys.right {
        var g := FirstGround(platforms);
        if g.None? {
          return false;
        }
        var maxX := platforms[g.value].x + platforms[g.value].width - Width;
        if x < maxX {
          x := x + Speed;
        }
      }
      if keys.left {
        x := x - Speed;
      }
      if keys.up && grounded {
        velocityY := JumpForce;
        grounded := false;
      }

      // Gravity
      velocityY := velocityY + Gravity;
      var nextY := y + velocityY;

      // Platform collision, in list order
      grounded := false;
      ghost var m0 := Motion(x, y, velocityY, grounded, nextY);
      assert Proposed(b0, keys, platforms) == Some(m0);
      assert Seen(m0, platforms, 0) == m0 by { assert platforms[..0] == []; }
      var i := 0;
      while i < |platforms|
        invariant 0 <= i <= |platforms|
        invariant Motion(x, y, velocityY, grounded, nextY) == Seen(m0, platforms, i)
      {
        SeenNext(m0, platforms, i);
        nextY := Touch(platforms[i], nextY);
        i := i + 1;
      }
      SeenAll(m0, platforms);
      ghost var c := Commit(ResolveAll(m0, platforms));

      y := nextY;

      // Horizontal bounds
      if x < 0.0 {
        x := 0.0;
      }
      assert State() == c;
      var g := FirstGround(platforms);
      if g.None? {
        return false;
      }
      var maxX := platforms[g.value].x + platforms[g.value].width - Width;
      if x > maxX {
        x := maxX;
      }
      ok := true;
    }
    /** The `forEach` callback for one platform: land on it, bump its underside, or get pushed out sideways. */
    method Touch(p: Rect, nextY: real) returns (newNextY: real)
      modifies this
      ensures Motion(x, y, velocityY, grounded, newNextY) == ResolvePlatform(old(Motion(x, y, velocityY, grounded, nextY)), p)
    {
      ghost var before := Motion(x, y, velocityY, grounded, nextY);
      newNextY := nextY;
      if x < p.x + p.width && x + Width > p.x {
        if velocityY > 0.0 && y + Height <= p.y && nextY + Height >= p.y {
          // from above
          assert Landing(before, p);
          y := p.y - Height;
          velocityY := 0.0;
          grounded := true;
          newNextY := y;
        } else if velocityY < 0.0 && y >= p.y + p.height && nextY <= p.y + p.height {
          // from below
          assert HeadBump(before, p) && !LandsOn(before, p);
          y := p.y + p.height;
          velocityY := 0.0;
          newNextY := y;
        } else if Abs(y + Height - p.y) < EdgeSlack || Abs(y - (p.y + p.height)) < EdgeSlack {
          // side push-out near an edge
          assert Overlaps(before, p) && !LandsOn(before, p) && !BumpsUnder(before, p) && NearEdge(before, p);
          if x + Width > p.x && x < p.x {
            x := p.x - Width;
          } else if x < p.x + p.width && x + Width > p.x + p.width {
            x := p.x + p.width;
          }
        }
      }
    }
  }
}
