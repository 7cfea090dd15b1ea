/**
 * Player-versus-platform collision: `YouCollide` (game.cpp:921-994) finds
 * the point of a cube's box closest to the player's centre and, when the
 * player is within reach, nudges the player by 0.05 along one axis; the cube
 * loop of `draw` (game.cpp:1063-1080) does this for every present cube in
 * index order.
 */
module Collision {
  import opened Numbers
  import opened Entities

  /** A 3-vector of reals (glm::vec3 in the source). */
  datatype Vec = Vec(x: real, y: real, z: real)

  /** Half-extents of a cube's collision box. */
  const HalfX := 1.0
  const HalfY := 3.0
  const HalfZ := 1.0

  /** Distance by which one collision nudges the player. */
  const Push := 0.05

  /** Amount taken off the radius before comparing with the distance. */
  const Slack := 0.1

  /** glm::clamp on one component. */
  function Clamp(v: real, lo: real, hi: real): (r: real)
    requires lo <= hi
    ensures lo <= r <= hi
    ensures lo <= v <= hi ==> r == v
  {
    if v < lo then lo else if v > hi then hi else v
  }

  /** The point of the cube's box closest to the player's centre. */
  function Closest(p: Player, c: Cube): Vec {
    Vec(c.posx + Clamp(p.posx - c.posx, -HalfX, HalfX),
        c.posy + Clamp(p.posy - c.posy, -HalfY, HalfY),
        c.posz + Clamp(p.posz - c.posz, -HalfZ, HalfZ))
  }

  /** The vector from the closest box point to the player's centre. */
  function Offset(p: Player, c: Cube): Vec {
    var q := Closest(p, c);
    Vec(p.posx - q.x, p.posy - q.y, p.posz - q.z)
  }

  function SqLength(v: Vec): real {
    v.x * v.x + v.y * v.y + v.z * v.z
  }

  /** The player's centre lies inside or on the cube's box. */
  predicate InsideBox(p: Player, c: Cube) {
    && -HalfX <= p.posx - c.posx <= HalfX
    && -HalfY <= p.posy - c.posy <= HalfY
    && -HalfZ <= p.posz - c.posz <= HalfZ
  }

  /**
   * length(offset) < radius - 0.1, without a square root: a length is never
   * negative, so the test fails when radius - 0.1 <= 0 and otherwise compares squares.
   */
  predicate Touching(p: Player, c: Cube) {
    var reach := p.radius - Slack;
    reach > 0.0 && SqLength(Offset(p, c)) < reach * reach
  }

  /** One of the six nudges: 0.05 along a single axis, either way. */
  predicate AxisNudge(v: Vec) {
    || v == Vec(Push, 0.0, 0.0) || v == Vec(-Push, 0.0, 0.0)
    || v == Vec(0.0, Push, 0.0) || v == Vec(0.0, -Push, 0.0)
    || v == Vec(0.0, 0.0, Push) || v == Vec(0.0, 0.0, -Push)
  }

  /** `q` is `p` moved by one axis nudge, with radius and velocities kept. */
  predicate OneNudge(p: Player, q: Player) {
    && q.radius == p.radius && q.velx == p.velx && q.vely == p.vely && q.velz == p.velz
    && AxisNudge(Vec(q.posx - p.posx, q.posy - p.posy, q.posz - p.posz))
  }

  /** The offset is zero exactly when the player's centre is in the box. */
  lemma OffsetZeroIffInside(p: Player, c: Cube)
    ensures Offset(p, c) == Vec(0.0, 0.0, 0.0) <==> InsideBox(p, c)
  {
  }

  /**
   * The branch chain of YouCollide once the player is within reach: x first,
   * then y, then z, each nudged in the direction of the offset.
   */
  function Nudge(p: Player, d: Vec): (r: Player)
    ensures d == Vec(0.0, 0.0, 0.0) ==> r == p
    ensures d != Vec(0.0, 0.0, 0.0) ==> OneNudge(p, r)
  {
    if d.x > 0.0 then p.(posx := p.posx + Push)
    else if d.x < 0.0 then p.(posx := p.posx - Push)
    else if d.y > 0.0 then p.(posy := p.posy + Push)
    else if d.y < 0.0 then p.(posy := p.posy - Push)
    else if d.z > 0.0 then p.(posz := p.posz + Push)
    else if d.z < 0.0 then p.(posz := p.posz - Push)
    else p
  }

  /**
   * YouCollide: a player within reach of the box and outside it is nudged by
   * 0.05 along one axis; any other player is returned as it is.
   */
  function YouCollide(p: Player, c: Cube): (r: Player)
    ensures r != p <==> Touching(p, c) && !InsideBox(p, c)
    ensures r == p || OneNudge(p, r)
  {
    OffsetZeroIffInside(p, c);
    if Touching(p, c) then Nudge(p, Offset(p, c)) else p
  }

  /** The axis priority: x when the offset has an x component, else y, else z; the nudge follows the offset's sign. */
  lemma CollidePriority(p: Player, c: Cube)
    requires Touching(p, c)
    ensures var d, r := Offset(p, c), YouCollide(p, c);
      && (d.x != 0.0 ==> r == p.(posx := p.posx + (if d.x > 0.0 then Push else -Push)))
      && (d.x == 0.0 && d.y != 0.0 ==> r == p.(posy := p.posy + (if d.y > 0.0 then Push else -Push)))
      && (d.x == 0.0 && d.y == 0.0 && d.z != 0.0 ==> r == p.(posz := p.posz + (if d.z > 0.0 then Push else -Push)))
  {
  }

  /** A nudge always moves the player away from the box: the distance to the closest box point grows. */
  lemma CollidePushesAway(p: Player, c: Cube)
    ensures var r := YouCollide(p, c);
      r != p ==> SqLength(Offset(r, c)) > SqLength(Offset(p, c))
  {
    var d, r := Offset(p, c), YouCollide(p, c);
    if r != p {
      var e := Offset(r, c);
      if d.x != 0.0 {
        assert e == Vec(d.x + (if d.x > 0.0 then Push else -Push), d.y, d.z);
      } else if d.y != 0.0 {
        assert e == Vec(d.x, d.y + (if d.y > 0.0 then Push else -Push), d.z);
      } else {
        assert e == Vec(d.x, d.y, d.z + (if d.z > 0.0 then Push else -Push));
      }
    }
  }

  /**
   * The cube loop's collisions: the player meets every present cube of `s`
   * in index order, missing cubes are skipped.
   */
  function CollideAll(p: Player, s: seq<Cube>): (r: Player)
    ensures r.radius == p.radius && r.velx == p.velx && r.vely == p.vely && r.velz == p.velz
    ensures (forall k :: 0 <= k < |s| ==> s[k].missing) ==> r == p
    decreases |s|
  {
    if s == [] then p
    else
      var q := CollideAll(p, s[..|s| - 1]);
      var c := s[|s| - 1];
      if c.missing then q else YouCollide(q, c)
  }

  /** Each present cube nudges the player by at most 0.05, so a frame moves it by at most 0.05 per cube. */
  lemma {:induction false} CollideAllBounded(p: Player, s: seq<Cube>)
    ensures var r := CollideAll(p, s);
      Abs(r.posx - p.posx) + Abs(r.posy - p.posy) + Abs(r.posz - p.posz) <= Push * |s| as real
    decreases |s|
  {
    if s != [] {
      var init := s[..|s| - 1];
      CollideAllBounded(p, init);
      var q := CollideAll(p, init);
      var c := s[|s| - 1];
      assert CollideAll(p, s) == if c.missing then q else YouCollide(q, c);
    }
  }
}
