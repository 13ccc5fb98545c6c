/**
 * The pure specification of one call of `Player.update`: steering from the held
 * keys, one gravity step, the in-order walk over the platforms, and the final
 * horizontal clamps. The class in player.dfy is proved to compute exactly `Step`.
 */
module Physics {
  import opened Options
  import opened Geometry
  import opened Levels

  // The player's fixed attributes, as the constructor sets them.
  const Width: real := 30.0
  const Height: real := 30.0
  const Speed: real := 2.0
  const JumpForce: real := -15.0
  const Gravity: real := 0.4
  // Distance from a platform's top or bottom edge below which the side push-out applies.
  const EdgeSlack: real := 10.0

  /** A snapshot of the arrow keys held during a frame. */
  datatype Keys = Keys(right: bool, left: bool, up: bool)

  const NoKeys: Keys := Keys(false, false, false)

  /** The player's mutable state: `x`, `y`, `velocityY`, `grounded`. */
  datatype Body = Body(x: real, y: real, vy: real, grounded: bool)

  /** The state `reset` (and the constructor) establishes. */
  const Start: Body := Body(50.0, 350.0, 0.0, true)

  /** The state inside the platform loop: the body plus the local `nextY`. */
  datatype Motion = Motion(x: real, y: real, vy: real, grounded: bool, nextY: real)

  /**
   * The effect of one `update`. `Crashed` is the TypeError raised when `find`
   * yields no ground platform; it carries the state left behind at the throw.
   */
  datatype StepResult = Stepped(body: Body) | Crashed(body: Body)

  /** The right-most x the ground platform allows. */
  function MaxX(ps: seq<Rect>): real
    requires HasGround(ps)
  {
    Ground(ps).x + Ground(ps).width - Width
  }

  /** Keys, jump impulse and gravity: the motion the platform loop starts from, or none on the early crash. */
  function Proposed(b: Body, keys: Keys, ps: seq<Rect>): (r: Option<Motion>)
    ensures r.None? <==> keys.right && !HasGround(ps)
    // ArrowRight adds the speed only while x is below the ground's bound; ArrowLeft always subtracts it
    ensures r.Some? ==>
      r.value.x == (if keys.right && b.x < MaxX(ps) then b.x + Speed else b.x) - (if keys.left then Speed else 0.0)
    ensures r.Some? && keys.right && !keys.left && b.x >= MaxX(ps) ==> r.value.x == b.x
    // the jump impulse replaces the velocity only when Up is held while grounded; gravity is added either way
    ensures r.Some? ==> r.value.vy == (if keys.up && b.grounded then JumpForce else b.vy) + Gravity
    ensures r.Some? ==> r.value.y == b.y && r.value.nextY == b.y + r.value.vy && !r.value.grounded
  {
    if keys.right && !HasGround(ps) then None
    else
      var x1 := if keys.right && b.x < MaxX(ps) then b.x + Speed else b.x;
      var x2 := if keys.left then x1 - Speed else x1;
      var jump := keys.up && b.grounded;
      var vy := (if jump then JumpForce else b.vy) + Gravity;
      Some(Motion(x2, b.y, vy, false, b.y + vy))
  }

  // The contact conditions of one platform.

  predicate Overlaps(m: Motion, p: Rect) {
    m.x < p.x + p.width && m.x + Width > p.x
  }

  predicate LandsOn(m: Motion, p: Rect) {
    m.vy > 0.0 && m.y + Height <= p.y && m.nextY + Height >= p.y
  }

  predicate BumpsUnder(m: Motion, p: Rect) {
    m.vy < 0.0 && m.y >= p.y + p.height && m.nextY <= p.y + p.height
  }

  predicate NearEdge(m: Motion, p: Rect) {
    Abs(m.y + Height - p.y) < EdgeSlack || Abs(m.y - (p.y + p.height)) < EdgeSlack
  }

  /** Falling onto the platform's top from above. */
  predicate Landing(m: Motion, p: Rect) {
    Overlaps(m, p) && LandsOn(m, p)
  }

  /** Rising into the platform's underside. */
  predicate HeadBump(m: Motion, p: Rect) {
    Overlaps(m, p) && BumpsUnder(m, p)
  }

  /** One of the three branches of the loop body is entered for this platform. */
  predicate Fires(m: Motion, p: Rect) {
    Overlaps(m, p) && (LandsOn(m, p) || BumpsUnder(m, p) || NearEdge(m, p))
  }

  /** One iteration of the `forEach` over the platforms. */
  function ResolvePlatform(m: Motion, p: Rect): (r: Motion)
    ensures !Fires(m, p) ==> r == m
    ensures Landing(m, p) ==> r == m.(y := p.y - Height, vy := 0.0, grounded := true, nextY := p.y - Height)
    ensures HeadBump(m, p) ==> r == m.(y := p.y + p.height, vy := 0.0, nextY := p.y + p.height)
    ensures r.grounded == (m.grounded || Landing(m, p))
    ensures r.vy == m.vy ==> r.y == m.y && r.nextY == m.nextY
    ensures r.vy == m.vy || (r.vy == 0.0 && r.y == r.nextY)
    // without a landing or head bump, only x can change
    ensures !Landing(m, p) && !HeadBump(m, p) ==> r == m.(x := r.x)
    // the side push-out moves the player just clear of the platform's nearer side
    ensures Overlaps(m, p) && !LandsOn(m, p) && !BumpsUnder(m, p) && NearEdge(m, p) ==>
      r.x == (if m.x < p.x then p.x - Width else if m.x + Width > p.x + p.width then p.x + p.width else m.x)
    ensures r.x == m.x || !Overlaps(r, p)
  {
    if !Overlaps(m, p) then m
    else if LandsOn(m, p) then
      m.(y := p.y - Height, vy := 0.0, grounded := true, nextY := p.y - Height)
    else if BumpsUnder(m, p) then
      m.(y := p.y + p.height, vy := 0.0, nextY := p.y + p.height)
    else if NearEdge(m, p) then
      if m.x + Width > p.x && m.x < p.x then m.(x := p.x - Width)
      else if m.x < p.x + p.width && m.x + Width > p.x + p.width then m.(x := p.x + p.width)
      else m
    else m
  }

  /** The whole `forEach`, in list order: each platform sees the state the earlier ones left. */
  function ResolveAll(m: Motion, ps: seq<Rect>): (r: Motion)
    // the velocity is only ever zeroed; while it keeps its value, y, nextY and
    // grounded are untouched (only the side push-out moved x)
    ensures r.vy == m.vy || r.vy == 0.0
    ensures r.vy == m.vy ==> r.y == m.y && r.nextY == m.nextY && r.grounded == m.grounded
    // nothing in the walk clears grounded
    ensures m.grounded ==> r.grounded
    decreases |ps|
  {
    if ps == [] then m else ResolvePlatform(ResolveAll(m, ps[..|ps| - 1]), ps[|ps| - 1])
  }

  /** The state that platform number `i` sees. */
  function Seen(m: Motion, ps: seq<Rect>, i: nat): Motion
    requires i <= |ps|
  {
    ResolveAll(m, ps[..i])
  }

  /** `this.y = nextY` and the left clamp `x >= 0`. */
  function Commit(m: Motion): (r: Body)
    ensures r.x >= 0.0 && (m.x >= 0.0 ==> r.x == m.x) && (m.x < 0.0 ==> r.x == 0.0)
    ensures r.y == m.nextY && r.vy == m.vy && r.grounded == m.grounded
  {
    Body(if m.x < 0.0 then 0.0 else m.x, m.nextY, m.vy, m.grounded)
  }

  /** One call of `update`: proposal, platform walk, commit, right clamp against the ground. */
  function Step(b: Body, keys: Keys, ps: seq<Rect>): (r: StepResult)
    ensures r.Stepped? <==> HasGround(ps)
    ensures r.Crashed? && keys.right ==> r.body == b
    ensures r.Stepped? ==> r.body.x <= MaxX(ps)
    ensures r.Stepped? && MaxX(ps) >= 0.0 ==> r.body.x >= 0.0
    // the right clamp only lowers an x beyond the bound, to exactly the bound
    ensures r.Stepped? ==>
      var c := Commit(ResolveAll(Proposed(b, keys, ps).value, ps));
      r.body == c.(x := if c.x > MaxX(ps) then MaxX(ps) else c.x)
    // the throw after the walk leaves everything committed except the right clamp
    ensures r.Crashed? && !keys.right ==> r.body == Commit(ResolveAll(Proposed(b, keys, ps).value, ps))
  {
    match Proposed(b, keys, ps)
    case None => Crashed(b)
    case Some(m) =>
      var c := Commit(ResolveAll(m, ps));
      if !HasGround(ps) then Crashed(c)
      else Stepped(c.(x := if c.x > MaxX(ps) then MaxX(ps) else c.x))
  }

  // ---------------------------------------------------------------------------
  // Properties of the platform walk

  lemma SeenNext(m: Motion, ps: seq<Rect>, i: nat)
    requires i < |ps|
    ensures Seen(m, ps, i + 1) == ResolvePlatform(Seen(m, ps, i), ps[i])
  {
    assert ps[..i + 1][..i] == ps[..i];
  }

  lemma SeenAll(m: Motion, ps: seq<Rect>)
    ensures Seen(m, ps, |ps|) == ResolveAll(m, ps)
  {
    assert ps[..|ps|] == ps;
  }

  lemma SeenPrefix(m: Motion, ps: seq<Rect>, n: nat, i: nat)
    requires i <= n <= |ps|
    ensures Seen(m, ps[..n], i) == Seen(m, ps, i)
  {
    assert ps[..n][..i] == ps[..i];
  }

  /**
   * Once the platforms from `k` on leave the state platform `k` sees as it is,
   * the walk ends in that state.
   */
  lemma {:induction false} SettledAfter(m: Motion, ps: seq<Rect>, k: nat)
    requires k <= |ps|
    requires forall j :: k <= j < |ps| ==> ResolvePlatform(Seen(m, ps, k), ps[j]) == Seen(m, ps, k)
    ensures ResolveAll(m, ps) == Seen(m, ps, k)
    decreases |ps|
  {
    if k == |ps| {
      SeenAll(m, ps);
    } else {
      var n := |ps| - 1;
      var front := ps[..n];
      SeenPrefix(m, ps, n, k);
      forall j | k <= j < |front|
        ensures ResolvePlatform(Seen(m, front, k), front[j]) == Seen(m, front, k)
      {
      }
      SettledAfter(m, front, k);
      assert ResolveAll(m, ps) == ResolvePlatform(ResolveAll(m, front), ps[n]);
    }
  }

  /** If no platform enters a branch, the walk changes nothing. */
  lemma {:induction false} QuietWalk(m: Motion, ps: seq<Rect>)
    requires forall i :: 0 <= i < |ps| ==> !Fires(m, ps[i])
    ensures ResolveAll(m, ps) == m
  {
    assert Seen(m, ps, 0) == m by { assert ps[..0] == []; }
    SettledAfter(m, ps, 0);
  }

  /** The walk over `ps` is the walk over its first `k` platforms followed by the walk over the rest. */
  lemma {:induction false} WalkSplit(m: Motion, ps: seq<Rect>, k: nat)
    requires k <= |ps|
    ensures ResolveAll(m, ps) == ResolveAll(Seen(m, ps, k), ps[k..])
    decreases |ps|
  {
    if k == |ps| {
      SeenAll(m, ps);
    } else {
      var n := |ps| - 1;
      WalkSplit(m, ps[..n], k);
      SeenPrefix(m, ps, n, k);
      assert ps[k..][..|ps[k..]| - 1] == ps[..n][k..];
    }
  }

  /** A state at rest keeps y, nextY, velocity and grounded through any walk: only x can move. */
  lemma AtRestStaysPut(s: Motion, ps: seq<Rect>)
    requires s.vy == 0.0
    ensures ResolveAll(s, ps) == s.(x := ResolveAll(s, ps).x)
  {
  }

  /** Without a landing or head bump anywhere, the walk leaves y, nextY, velocity and grounded as they were. */
  lemma {:induction false} NoVerticalContact(m: Motion, ps: seq<Rect>)
    requires forall i :: 0 <= i < |ps| ==> !Landing(Seen(m, ps, i), ps[i]) && !HeadBump(Seen(m, ps, i), ps[i])
    ensures ResolveAll(m, ps) == m.(x := ResolveAll(m, ps).x)
    decreases |ps|
  {
    if ps != [] {
      var n := |ps| - 1;
      forall i | 0 <= i < n
        ensures !Landing(Seen(m, ps[..n], i), ps[..n][i]) && !HeadBump(Seen(m, ps[..n], i), ps[..n][i])
      {
        SeenPrefix(m, ps, n, i);
      }
      NoVerticalContact(m, ps[..n]);
      SeenAll(m, ps[..n]);
      SeenPrefix(m, ps, n, n);
    }
  }

  /** If no platform's push-out moves the player, the walk leaves x as it was. */
  lemma {:induction false} NoPushOut(m: Motion, ps: seq<Rect>)
    requires forall i :: 0 <= i < |ps| ==> ResolvePlatform(Seen(m, ps, i), ps[i]).x == Seen(m, ps, i).x
    ensures ResolveAll(m, ps).x == m.x
    decreases |ps|
  {
    if ps != [] {
      var n := |ps| - 1;
      forall i | 0 <= i < n
        ensures ResolvePlatform(Seen(m, ps[..n], i), ps[..n][i]).x == Seen(m, ps[..n], i).x
      {
        SeenPrefix(m, ps, n, i);
      }
      NoPushOut(m, ps[..n]);
      SeenAll(m, ps[..n]);
      SeenPrefix(m, ps, n, n);
    }
  }

  /** A walk has at most one vertical contact: after a landing or head bump, no later platform lands or bumps. */
  lemma AtMostOneVerticalContact(m: Motion, ps: seq<Rect>, i: nat, j: nat)
    requires i < j < |ps|
    requires Landing(Seen(m, ps, i), ps[i]) || HeadBump(Seen(m, ps, i), ps[i])
    ensures !Landing(Seen(m, ps, j), ps[j]) && !HeadBump(Seen(m, ps, j), ps[j])
  {
    SeenNext(m, ps, i);
    var front := ps[..j];
    WalkSplit(m, front, i + 1);
    SeenPrefix(m, ps, j, i + 1);
  }

  /** Some platform before number `k` caught a fall on the state it saw. */
  predicate LandedBefore(m: Motion, ps: seq<Rect>, k: nat)
    requires k <= |ps|
  {
    exists i :: 0 <= i < k && Landing(Seen(m, ps, i), ps[i])
  }

  lemma LandedBeforeStep(m: Motion, ps: seq<Rect>, n: nat)
    requires n < |ps|
    ensures LandedBefore(m, ps, n + 1) <==> LandedBefore(m, ps[..n], n) || Landing(Seen(m, ps, n), ps[n])
  {
    var front := ps[..n];
    if LandedBefore(m, ps, n + 1) && !Landing(Seen(m, ps, n), ps[n]) {
      var i :| 0 <= i < n + 1 && Landing(Seen(m, ps, i), ps[i]);
      SeenPrefix(m, ps, n, i);
      assert Landing(Seen(m, front, i), front[i]);
    }
    if LandedBefore(m, front, n) {
      var i :| 0 <= i < n && Landing(Seen(m, front, i), front[i]);
      SeenPrefix(m, ps, n, i);
      assert Landing(Seen(m, ps, i), ps[i]);
    }
  }

  /** After the walk the player is grounded exactly when it was, or some platform caught a fall. */
  lemma {:induction false} GroundedIffLanded(m: Motion, ps: seq<Rect>)
    ensures ResolveAll(m, ps).grounded <==> m.grounded || LandedBefore(m, ps, |ps|)
    decreases |ps|
  {
    if ps != [] {
      var n := |ps| - 1;
      GroundedIffLanded(m, ps[..n]);
      LandedBeforeStep(m, ps, n);
      SeenAll(m, ps[..n]);
      SeenPrefix(m, ps, n, n);
    }
  }

  // ---------------------------------------------------------------------------
  // Properties of a whole frame

  /**
   * Without a landing or head bump (side push-outs allowed), the frame is plain integration: the velocity is
   * the jump impulse (only when Up is held while grounded) or the old velocity, plus
   * gravity; `y` advances by that velocity; and the player is airborne.
   */
  lemma FrameWithoutContact(b: Body, keys: Keys, ps: seq<Rect>)
    requires HasGround(ps)
    requires forall i :: 0 <= i < |ps| ==>
      !Landing(Seen(Proposed(b, keys, ps).value, ps, i), ps[i]) &&
      !HeadBump(Seen(Proposed(b, keys, ps).value, ps, i), ps[i])
    ensures Step(b, keys, ps).Stepped?
    ensures Step(b, keys, ps).body.vy == (if keys.up && b.grounded then JumpForce else b.vy) + Gravity
    ensures Step(b, keys, ps).body.y == b.y + Step(b, keys, ps).body.vy
    ensures !Step(b, keys, ps).body.grounded
  {
    NoVerticalContact(Proposed(b, keys, ps).value, ps);
  }

  /** Whatever else happens, the frame ends grounded exactly when some platform caught a fall. */
  lemma FrameGrounded(b: Body, keys: Keys, ps: seq<Rect>)
    requires HasGround(ps)
    ensures Step(b, keys, ps).body.grounded <==> LandedBefore(Proposed(b, keys, ps).value, ps, |ps|)
  {
    GroundedIffLanded(Proposed(b, keys, ps).value, ps);
  }

  /**
   * A fall caught by platform `k` ends the frame resting on that platform's top,
   * at rest and grounded, whatever the later platforms are: at rest, they can
   * only push the player sideways.
   */
  lemma FrameLanding(b: Body, keys: Keys, ps: seq<Rect>, k: nat)
    requires HasGround(ps) && k < |ps|
    requires Landing(Seen(Proposed(b, keys, ps).value, ps, k), ps[k])
    ensures Step(b, keys, ps).body.y == ps[k].y - Height
    ensures Step(b, keys, ps).body.vy == 0.0
    ensures Step(b, keys, ps).body.grounded
  {
    var m := Proposed(b, keys, ps).value;
    SeenNext(m, ps, k);
    WalkSplit(m, ps, k + 1);
  }

  /**
   * Rising into the underside of platform `k` ends the frame just below it with
   * zero velocity and NOT grounded: a rising player cannot have landed earlier in
   * the same walk, and later platforms can only push it sideways.
   */
  lemma FrameHeadBump(b: Body, keys: Keys, ps: seq<Rect>, k: nat)
    requires HasGround(ps) && k < |ps|
    requires HeadBump(Seen(Proposed(b, keys, ps).value, ps, k), ps[k])
    ensures Step(b, keys, ps).body.y == ps[k].y + ps[k].height
    ensures Step(b, keys, ps).body.vy == 0.0
    ensures !Step(b, keys, ps).body.grounded
  {
    var m := Proposed(b, keys, ps).value;
    SeenNext(m, ps, k);
    WalkSplit(m, ps, k + 1);
  }

  /**
   * Without a side push-out, the frame's final x is the keys' proposal clamped
   * into `[0, MaxX]`: raised to 0 below it, lowered to the bound above it,
   * untouched inside.
   */
  lemma FrameX(b: Body, keys: Keys, ps: seq<Rect>)
    requires HasGround(ps) && MaxX(ps) >= 0.0
    requires forall i :: 0 <= i < |ps| ==>
      ResolvePlatform(Seen(Proposed(b, keys, ps).value, ps, i), ps[i]).x == Seen(Proposed(b, keys, ps).value, ps, i).x
    ensures var px := Proposed(b, keys, ps).value.x;
      Step(b, keys, ps).body.x == if px < 0.0 then 0.0 else if px > MaxX(ps) then MaxX(ps) else px
  {
    NoPushOut(Proposed(b, keys, ps).value, ps);
  }

  // ---------------------------------------------------------------------------
  // Concrete frames on the shipped levels

  /** Standing still at the start position is a fixed point of `update` on every level. */
  lemma StartIsAtRest(i: nat)
    requires i < |Table|
    ensures Step(Start, NoKeys, Table[i].platforms) == Stepped(Start)
  {
    TableGrounds();
    var ps := Table[i].platforms;
    var m := Proposed(Start, NoKeys, ps).value;
    assert m == Motion(50.0, 350.0, 0.4, false, 350.4);
    SeenNext(m, ps, 0);
    assert Seen(m, ps, 0) == m by { assert ps[..0] == []; }
    var landed := Motion(50.0, 350.0, 0.0, true, 350.0);
    assert Seen(m, ps, 1) == landed;
    forall j | 1 <= j < |ps|
      ensures ResolvePlatform(Seen(m, ps, 1), ps[j]) == Seen(m, ps, 1)
    {
      assert !Overlaps(landed, ps[j]);
    }
    SettledAfter(m, ps, 1);
  }

  /** The first frame of a jump from the start of level 1: velocity -14.6, y 335.4, airborne. */
  lemma JumpFromStart()
    ensures Step(Start, Keys(false, false, true), Table[0].platforms) == Stepped(Body(50.0, 335.4, -14.6, false))
  {
    TableGrounds();
    var ps := Table[0].platforms;
    var keys := Keys(false, false, true);
    var m := Proposed(Start, keys, ps).value;
    assert m == Motion(50.0, 350.0, -14.6, false, 335.4);
    assert Seen(m, ps, 0) == m by { assert ps[..0] == []; }
    forall j | 0 <= j < |ps|
      ensures ResolvePlatform(Seen(m, ps, 0), ps[j]) == Seen(m, ps, 0)
    {
    }
    SettledAfter(m, ps, 0);
  }
}
