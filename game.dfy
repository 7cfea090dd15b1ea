/**
 * The game's global state and the code that changes it in place: the
 * start-up part of `initGL` that lays out the platform field
 * (game.cpp:1252-1276), `changeview` (game.cpp:374-394), the `keyboard`
 * callback (game.cpp:395-459), `gravity` (game.cpp:911-918) and the
 * non-rendering part of `draw` (game.cpp:1002-1080).
 */
module Game {
  import opened Entities
  import opened Platforms
  import opened Collision
  import opened Camera
  import opened Controls
  import opened Physics

  /**
   * The moving-cube count of the start-up rejection loop: the first draw
   * whose residue mod 30 is at least 10 (0 when there is none).
   */
  function DrawnCount(draws: seq<nat>): nat {
    if draws == [] then 0
    else if draws[0] % 30 >= 10 then draws[0] % 30
    else DrawnCount(draws[1..])
  }

  /**
   * `while (n < 10) n = rand() % 30;` over the rand() values `draws`:
   * returns the count and how many values it used.
   */
  method MovingCount(draws: seq<nat>) returns (n: nat, used: nat)
    requires exists k :: 0 <= k < |draws| && draws[k] % 30 >= 10
    ensures 10 <= n < 30
    ensures 0 < used <= |draws| && n == draws[used - 1] % 30
    ensures forall k :: 0 <= k < used - 1 ==> draws[k] % 30 < 10
    ensures n == DrawnCount(draws)
  {
    n, used := 0, 0;
    while n < 10
      invariant used <= |draws|
      invariant used == 0 ==> n == 0
      invariant used > 0 ==> n == draws[used - 1] % 30
      invariant forall k :: 0 <= k < used - 1 ==> draws[k] % 30 < 10
      invariant n < 10 ==> DrawnCount(draws[used..]) == DrawnCount(draws)
      invariant n < 10 ==> exists k :: used <= k < |draws| && draws[k] % 30 >= 10
      invariant n >= 10 ==> n == DrawnCount(draws)
      decreases |draws| - used
    {
      assert draws[used..][0] == draws[used];
      assert draws[used..][1..] == draws[used + 1..];
      n := draws[used] % 30;
      used := used + 1;
    }
  }

  /** The cubes the picking loop marks as moving: picks mod 100 that fall in 10..89. */
  function PickedSet(picks: seq<nat>): set<int> {
    if picks == [] then {}
    else
      var k := picks[|picks| - 1] % 100;
      PickedSet(picks[..|picks| - 1]) + (if 9 < k < 90 then {k} else {})
  }

  /** Only cubes 10..89 can be picked, so the first and last rows never move. */
  lemma {:induction false} PickedSetInRange(picks: seq<nat>)
    ensures forall k :: k in PickedSet(picks) ==> 10 <= k < 90
    decreases |picks|
  {
    if picks != [] {
      PickedSetInRange(picks[..|picks| - 1]);
    }
  }

  /** The whole mutable state of the game (its globals). */
  class World {
    var towerview: bool
    var topview: bool
    var playerview: bool
    var camera: Eye
    var player: Player
    var cubes: array<Cube>
    var timenow: real
    var timethen: real
    var gravitypower: real

    /** The three view flags as one value. */
    function Flags(): Views
      reads this
    {
      Views(towerview, topview, playerview)
    }

    /** One view flag is set, and every cube keeps its platform invariant. */
    ghost predicate Valid()
      reads this, cubes
    {
      && cubes.Length == CubeCount
      && ExactlyOne(Flags())
      && forall k :: 0 <= k < cubes.Length ==> Platform(k, cubes[k])
    }

    /** The clamp bounds the arrow keys read: the centres of cubes 0, 9, 99 and 1. */
    function ClampBox(): (b: Box)
      reads this, cubes
      requires Valid()
      ensures b == FieldBox && NonEmpty(b)
    {
      assert Platform(0, cubes[0]) && Platform(9, cubes[9]);
      assert Platform(99, cubes[99]) && Platform(1, cubes[1]);
      Box(cubes[0].posx, cubes[9].posx, cubes[99].posz, cubes[1].posz)
    }

    /**
     * Start-up: the static initial values of the globals and the part of
     * initGL that builds the field and the player. `draws` are the rand()
     * values of the count loop, `picks` those of the picking loop.
     */
    constructor (draws: seq<nat>, picks: seq<nat>, radius: real)
      requires exists k :: 0 <= k < |draws| && draws[k] % 30 >= 10
      requires DrawnCount(draws) <= |picks|
      ensures Valid() && fresh(cubes)
      ensures Flags() == InitialViews
      ensures forall k :: 0 <= k < CubeCount ==>
        cubes[k] == GridCube(k).(moving := k in PickedSet(picks[..DrawnCount(draws)]), missing := k == 3 || k == 15)
      ensures player == MakePlayer(cubes[0], radius)
      ensures camera == Eye(0.0, 0.0, 0.0, 0.0, 0.0, 0.0, 70.0)
      ensures gravitypower == GravityPower && timenow == 0.0 && timethen == 0.0
    {
      var a := new Cube[CubeCount];
      var mark := 0;
      var positionx, positiony, positionz := -10.0, 0.0, 6.0;
      for j := 0 to 10
        invariant mark == 10 * j
        invariant positionz == GridZ(j) && positiony == 0.0
        invariant forall k :: 0 <= k < mark ==> a[k] == GridCube(k)
      {
        positionx := -10.0;
        for i := 0 to 10
          invariant mark == 10 * j + i
          invariant positionx == GridX(i)
          invariant forall k :: 0 <= k < mark ==> a[k] == GridCube(k)
        {
          assert mark % RowLength == i && mark / RowLength == j;
          a[mark] := CreateCube(positionx, positiony, positionz);
          mark := mark + 1;
          positionx := positionx + Spacing;
        }
        positionz := positionz - Spacing;
      }

      var count, used := MovingCount(draws);
      for i := 0 to count
        invariant forall k :: 0 <= k < CubeCount ==> a[k] == GridCube(k).(moving := k in PickedSet(picks[..i]))
      {
        assert picks[..i + 1][..i] == picks[..i];
        var cubeNo := picks[i] % 100;
        if cubeNo > 9 && cubeNo < 90 {
          a[cubeNo] := a[cubeNo].(moving := true);
        }
      }
      a[3] := a[3].(missing := true);
      a[15] := a[15].(missing := true);

      PickedSetInRange(picks[..count]);
      forall k | 0 <= k < CubeCount
        ensures Platform(k, a[k])
      {
        GridBounds(k);
      }

      cubes := a;
      player := MakePlayer(a[0], radius);
      towerview, topview, playerview := false, false, true;
      camera := Eye(0.0, 0.0, 0.0, 0.0, 0.0, 0.0, 70.0);
      timenow, timethen, gravitypower := 0.0, 0.0, GravityPower;
    }

    /** changeview: advance the camera mode tower -> top -> player -> tower. */
    method ChangeView()
      requires Valid()
      modifies this`towerview, this`topview, this`playerview
      ensures Valid()
      ensures Flags() == NextView(old(Flags()))
    {
      if towerview {
        towerview := false;
        playerview := false;
        topview := true;
      } else if topview {
        topview := false;
        playerview := true;
        towerview := false;
      } else if playerview {
        topview := false;
        playerview := false;
        towerview := true;
      }
    }

    /**
     * keyboard: Escape on a press asks to quit, T on a press changes the
     * view, and the arrow keys on a press or a repeat move the player.
     */
    method Keyboard(key: Key, action: Action) returns (quit: bool)
      requires Valid()
      modifies this`player, this`towerview, this`topview, this`playerview
      ensures Valid()
      ensures quit <==> action == Press && key == Escape
      ensures Flags() == if action == Press && key == T then NextView(old(Flags())) else old(Flags())
      ensures player == KeyMove(old(player), key, action, ClampBox())
      ensures InBox(old(player), FieldBox) ==> InBox(player, FieldBox)
    {
      quit := false;
      if action == Press && key == Escape {
        quit := true;
      } else if action == Press && key == T {
        ChangeView();
      } else if action == Press || action == Repeat {
        match key {
          case Up =>
            player := player.(posz := player.posz - Stride);
            if player.posz < cubes[99].posz {
              player := player.(posz := cubes[99].posz);
            }
          case Down =>
            player := player.(posz := player.posz + Stride);
            if player.posz > cubes[1].posz {
              player := player.(posz := cubes[1].posz);
            }
          case Left =>
            player := player.(posx := player.posx - Stride);
            if player.posx < cubes[0].posx {
              player := player.(posx := cubes[0].posx);
            }
          case Right =>
            player := player.(posx := player.posx + Stride);
            if player.posx > cubes[9].posx {
              player := player.(posx := cubes[9].posx);
            }
          case _ =>
        }
      }
      if InBox(old(player), FieldBox) {
        KeyMoveStaysInBox(old(player), key, action, FieldBox);
      }
    }

    /** gravity(): one Euler step of the player with the time since the last step. */
    method Gravity(clock: real)
      requires Valid()
      modifies this`player, this`timenow, this`timethen
      ensures Valid()
      ensures Fall(player, gravitypower, timenow, timethen)
        == GravityStep(Fall(old(player), gravitypower, old(timenow), old(timethen)), clock)
    {
      timenow := clock;
      player := player.(vely := player.vely + gravitypower * (timenow - timethen));
      player := player.(posy := player.posy + player.vely);
      timethen := timenow;
    }

    /**
     * The non-rendering part of draw: the camera update, the fall step, and
     * the cube loop that moves the moving cubes and collides the player with
     * every present cube in index order.
     */
    method Draw(clock: real)
      requires Valid()
      modifies this`camera, this`player, this`gravitypower, this`timenow, this`timethen, cubes
      ensures Valid() && Flags() == old(Flags())
      ensures camera == CameraStep(old(Flags()), old(camera), old(player))
      ensures forall k :: 0 <= k < CubeCount ==> cubes[k] == StepCube(old(cubes[k]))
      ensures forall k :: 0 <= k < CubeCount && (old(cubes[k]).missing || !old(cubes[k]).moving) ==> cubes[k] == old(cubes[k])
      ensures var fall := FallStep(Fall(old(player), old(gravitypower), old(timenow), old(timethen)), clock, old(cubes[0].posy));
        && gravitypower == fall.gravitypower && timenow == fall.timenow && timethen == fall.timethen
        && player == CollideAll(fall.player, cubes[..])
    {
      camera := CameraStep(Flags(), camera, player);

      if player.posy <= cubes[0].posy + Clearance {
        player := player.(vely := 0.0);
        gravitypower := 0.0;
      } else {
        gravitypower := GravityPower;
        Gravity(clock);
      }

      ghost var before := cubes[..];
      CubeLoop();
      forall k | 0 <= k < CubeCount
        ensures Platform(k, cubes[k])
      {
        assert Platform(k, before[k]);
        StepCubeKeepsPlatform(k, before[k]);
      }
    }

    /**
     * The cube loop of draw: each present cube is moved if it is a moving
     * one, then collided with the player, in index order.
     */
    method CubeLoop()
      requires cubes.Length == CubeCount
      modifies this`player, cubes
      ensures forall k :: 0 <= k < CubeCount ==> cubes[k] == StepCube(old(cubes[k]))
      ensures player == CollideAll(old(player), cubes[..])
    {
      for j := 0 to CubeCount
        invariant forall k :: 0 <= k < j ==> cubes[k] == StepCube(old(cubes[k]))
        invariant forall k :: j <= k < CubeCount ==> cubes[k] == old(cubes[k])
        invariant player == CollideAll(old(player), cubes[..j])
      {
        ghost var met := player;
        if !cubes[j].missing {
          if cubes[j].moving {
            cubes[j] := MoveCube(cubes[j]);
          }
          player := YouCollide(player, cubes[j]);
        }
        ghost var done := cubes[..j + 1];
        assert done[..j] == cubes[..j] && done[j] == cubes[j];
        assert player == if cubes[j].missing then met else YouCollide(met, cubes[j]);
      }
      assert cubes[..CubeCount] == cubes[..];
    }
  }
}
