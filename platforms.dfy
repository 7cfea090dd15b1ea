/**
 * Moving and missing platforms: the bounce rule `movecube`
 * (game.cpp:895-904), the per-frame update of one cube inside `draw`
 * (game.cpp:1063-1068) and the invariant every cube of the field keeps.
 */
module Platforms {
  import opened Entities

  /** Height by which a moving cube climbs or sinks per frame. */
  const Step := 0.07

  /** Heights beyond which a moving cube turns round. */
  const Ceiling := 2.0
  const Floor := -2.0

  /**
   * movecube: the cube moves one step in its direction; once the new height
   * is above the ceiling or below the floor, the direction is reversed.
   */
  function MoveCube(c: Cube): (r: Cube)
    ensures r.posy == c.posy + Step * c.direction as real
    ensures r.direction == if r.posy > Ceiling || r.posy < Floor then -c.direction else c.direction
    ensures r.posx == c.posx && r.posz == c.posz
    ensures r.moving == c.moving && r.missing == c.missing
  {
    var moved := c.(posy := c.posy + Step * c.direction as real);
    var turned := if moved.posy > Ceiling then moved.(direction := moved.direction * -1) else moved;
    if turned.posy < Floor then turned.(direction := turned.direction * -1) else turned
  }

  /**
   * The band a bouncing cube stays in: direction is +1 or -1, the height is
   * within one step of the turning points, and a cube beyond a turning point
   * is already heading back.
   */
  predicate InBand(c: Cube) {
    && (c.direction == 1 || c.direction == -1)
    && Floor - Step <= c.posy <= Ceiling + Step
    && (c.posy > Ceiling ==> c.direction == -1)
    && (c.posy < Floor ==> c.direction == 1)
  }

  /** movecube keeps a cube in the band, so a bouncing cube never leaves [-2.07, 2.07]. */
  lemma MoveCubeKeepsBand(c: Cube)
    requires InBand(c)
    ensures InBand(MoveCube(c))
  {
  }

  /** The cube-loop body of `draw`: a present, moving cube is moved; every other cube is left as it is. */
  function StepCube(c: Cube): (r: Cube)
    ensures c.missing || !c.moving ==> r == c
    ensures !c.missing && c.moving ==> r == MoveCube(c)
    ensures r.posx == c.posx && r.posz == c.posz && r.moving == c.moving && r.missing == c.missing
    ensures InBand(c) ==> InBand(r)
  {
    if !c.missing && c.moving then MoveCube(c) else c
  }

  /**
   * The invariant of cube `k` of the field from start-up on: it stays at its
   * grid column and row, only cubes 10..89 can move, exactly cubes 3 and 15
   * are missing, and a cube that does not move is still at height 0.
   */
  predicate Platform(k: int, c: Cube) {
    && c.posx == GridX(k % RowLength)
    && c.posz == GridZ(k / RowLength)
    && InBand(c)
    && (c.moving ==> 10 <= k < 90)
    && (c.missing <==> k == 3 || k == 15)
    && (!c.moving ==> c.posy == 0.0 && c.direction == 1)
  }

  /** The per-frame cube update keeps every platform's invariant. */
  lemma StepCubeKeepsPlatform(k: int, c: Cube)
    requires Platform(k, c)
    ensures Platform(k, StepCube(c))
  {
  }
}
