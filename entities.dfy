/**
 * The records of the game: a platform cube and the player avatar
 * (game.cpp:33-51), stripped of their vertex-array handles, and the
 * functions that build them at start-up.
 */
module Entities {

  /** One platform of the 10 x 10 field (struct CUBE). */
  datatype Cube = Cube(posx: real, posy: real, posz: real, direction: int, moving: bool, missing: bool)

  /** The player avatar (struct PLAYER); `radius` is its collision radius. */
  datatype Player = Player(posx: real, posy: real, posz: real, radius: real, velx: real, vely: real, velz: real)

  /** Number of cubes in the field, and of cubes per row. */
  const CubeCount := 100
  const RowLength := 10

  /** Distance between neighbouring cube centres along x and along z. */
  const Spacing := 2.1

  /** A cube as `createcube` leaves it: still, present, heading upwards. */
  predicate AtRest(c: Cube) {
    c.direction == 1 && !c.moving && !c.missing
  }

  /** createcube: places a cube and resets its motion flags. */
  function CreateCube(x: real, y: real, z: real): (r: Cube)
    ensures AtRest(r) && r.posx == x && r.posy == y && r.posz == z
  {
    Cube(x, y, z, 1, false, false)
  }

  /** x of the cubes in column `i` of the field. */
  function GridX(i: int): real {
    -10.0 + Spacing * i as real
  }

  /** z of the cubes in row `j` of the field. */
  function GridZ(j: int): real {
    6.0 - Spacing * j as real
  }

  /** The cube that the start-up loop stores at index `k`: row k / 10, column k % 10. */
  function GridCube(k: nat): Cube {
    CreateCube(GridX(k % RowLength), 0.0, GridZ(k / RowLength))
  }

  /**
   * The clamp bounds of the arrow keys are the centres of cubes 0 and 9 (x) and
   * 99 and 1 (z); every grid cube lies between them, and they span a non-empty box.
   */
  lemma GridBounds(k: nat)
    requires k < CubeCount
    ensures AtRest(GridCube(k)) && GridCube(k).posy == 0.0
    ensures GridCube(0).posx <= GridCube(k).posx <= GridCube(9).posx
    ensures GridCube(99).posz <= GridCube(k).posz <= GridCube(1).posz
    ensures GridCube(0).posx == -10.0 && GridCube(9).posx == 8.9
    ensures GridCube(99).posz == -12.9 && GridCube(1).posz == 6.0
  {
  }

  /** makeplayer: the player starts above cube 0, at rest, out of reach of the ground test. */
  function MakePlayer(c0: Cube, radius: real): (p: Player)
    ensures p.posx == c0.posx && p.posz == c0.posz
    ensures p.posy == c0.posy + 8.5 && p.posy > c0.posy + 4.0
    ensures p.velx == 0.0 && p.vely == 0.0 && p.velz == 0.0 && p.radius == radius
  {
    Player(c0.posx, c0.posy + 3.5 + 5.0, c0.posz, radius, 0.0, 0.0, 0.0)
  }
}
