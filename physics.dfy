/**
 * Falling: the grounded test at the top of the physics part of `draw`
 * (game.cpp:1051-1060) and the Euler step `gravity` (game.cpp:911-918).
 * The clock reading that `gravity` takes from glfwGetTime is a parameter.
 */
module Physics {
  import opened Entities

  /** The player together with the globals the fall step touches. */
  datatype Fall = Fall(player: Player, gravitypower: real, timenow: real, timethen: real)

  /** Acceleration the fall step uses (the initial value of gravitypower). */
  const GravityPower := -0.1

  /** Height above cube 0 at or below which the player counts as standing. */
  const Clearance := 4.0

  predicate Grounded(p: Player, ground: real) {
    p.posy <= ground + Clearance
  }

  /** gravity(): one Euler step with the time since the last step, then the clock is remembered. */
  function GravityStep(s: Fall, clock: real): (r: Fall)
    ensures r.player.vely - s.player.vely == s.gravitypower * (clock - s.timethen)
    ensures r.player.posy - s.player.posy == r.player.vely
    ensures r.timenow == clock && r.timethen == clock && r.gravitypower == s.gravitypower
    ensures r.player == s.player.(vely := r.player.vely, posy := r.player.posy)
  {
    var vely := s.player.vely + s.gravitypower * (clock - s.timethen);
    Fall(s.player.(vely := vely, posy := s.player.posy + vely), s.gravitypower, clock, clock)
  }

  /**
   * The fall part of one frame. A grounded player stops falling: its vertical
   * velocity and the gravity power become 0 and its height and the clocks stay.
   * Otherwise the gravity power is reset to -0.1 and `gravity` runs.
   */
  function FallStep(s: Fall, clock: real, ground: real): (r: Fall)
    ensures Grounded(s.player, ground) ==>
      && r.player == s.player.(vely := 0.0) && r.gravitypower == 0.0
      && r.timenow == s.timenow && r.timethen == s.timethen
    ensures !Grounded(s.player, ground) ==>
      && r.gravitypower == GravityPower && r.timenow == clock && r.timethen == clock
      && r.player.vely == s.player.vely + GravityPower * (clock - s.timethen)
      && r.player.posy == s.player.posy + r.player.vely
      && r.player == s.player.(vely := r.player.vely, posy := r.player.posy)
  {
    if Grounded(s.player, ground) then
      s.(player := s.player.(vely := 0.0), gravitypower := 0.0)
    else
      GravityStep(s.(gravitypower := GravityPower), clock)
  }

  /**
   * While the player is in the air and time has passed since the last fall
   * step, a player that is not rising falls faster and lower every frame.
   */
  lemma FallingAccelerates(s: Fall, clock: real, ground: real)
    requires !Grounded(s.player, ground) && clock > s.timethen && s.player.vely <= 0.0
    ensures var r := FallStep(s, clock, ground);
      r.player.vely < s.player.vely && r.player.posy < s.player.posy
  {
  }

  /**
   * The fall step with line 1058 read as having no effect on the global
   * gravitypower: a grounded frame sets it to 0 and nothing sets it back.
   */
  function FallStepAsWritten(s: Fall, clock: real, ground: real): (r: Fall)
    ensures Grounded(s.player, ground) ==> r == FallStep(s, clock, ground) && r.gravitypower == 0.0
    ensures !Grounded(s.player, ground) ==>
      && r.gravitypower == s.gravitypower
      && r.player.vely == s.player.vely + s.gravitypower * (clock - s.timethen)
    ensures s.gravitypower == GravityPower ==> r == FallStep(s, clock, ground)
  {
    if Grounded(s.player, ground) then
      s.(player := s.player.(vely := 0.0), gravitypower := 0.0)
    else
      GravityStep(s, clock)
  }

  /**
   * A player that stood on the field and is lifted back into the air (a rising
   * platform pushes it up) no longer accelerates under the as-written step,
   * whereas the intended step makes it fall again.
   */
  lemma AsWrittenFloatsAfterLanding()
    ensures var s0 := Fall(Player(-10.0, 4.0, 6.0, 0.7, 0.0, 0.0, 0.0), GravityPower, 0.0, 0.0);
      var s1 := FallStepAsWritten(s0, 1.0, 0.0);
      var lifted := s1.(player := s1.player.(posy := 4.5));
      && s1.gravitypower == 0.0
      && FallStepAsWritten(lifted, 2.0, 0.0).player.vely == 0.0
      && FallStep(lifted, 2.0, 0.0).player.vely == -0.2
  {
    var s0 := Fall(Player(-10.0, 4.0, 6.0, 0.7, 0.0, 0.0, 0.0), GravityPower, 0.0, 0.0);
    assert Grounded(s0.player, 0.0);
    var s1 := FallStepAsWritten(s0, 1.0, 0.0);
    assert s1 == s0.(player := s0.player.(vely := 0.0), gravitypower := 0.0);
    var lifted := s1.(player := s1.player.(posy := 4.5));
    assert !Grounded(lifted.player, 0.0);
    assert FallStepAsWritten(lifted, 2.0, 0.0) == GravityStep(lifted, 2.0);
    assert FallStep(lifted, 2.0, 0.0) == GravityStep(lifted.(gravitypower := GravityPower), 2.0);
  }
}
