# Platformer game logic (game.cpp) in Dafny

This project models the game logic inside `game.cpp`, a small OpenGL 3D
platformer. The scene is a 10 x 10 field of floating cubes and a player
avatar. A few cubes bob up and down, two are missing, the arrow keys move
the player, and `T` cycles three camera modes. Every frame applies gravity
while the player is more than 4 above cube 0. In the same frame, each
present cube the player is within reach of nudges it 0.05 away, unless the
player's centre is inside that cube's box.

The model has these modules:

- `Entities` (entities.dfy): the `CUBE` and `PLAYER` records, without their
  vertex-array handles; `createcube`, `makeplayer`, and the layout of the grid.
- `Platforms` (platforms.dfy): `movecube`; the per-frame update of one cube;
  the invariant every cube of the field keeps (grid position, band of
  heights, which cubes may move or be missing).
- `Collision` (collision.dfy): `YouCollide` and the collision pass of the
  cube loop in `draw`.
- `Camera` (camera.dfy): the view flags, `changeview`, and the eye/target
  update at the top of `draw`.
- `Controls` (controls.dfy): the arrow-key branches of `keyboard` as a
  function on the player, with the clamp box.
- `Physics` (physics.dfy): the grounded test and `gravity`.
- `Game` (game.dfy): the globals as fields of class `World`. `cubes` is an
  `array<Cube>` of 100. The class holds the start-up part of `initGL`,
  `changeview`, `keyboard`, `gravity` and the state update of `draw`. Each
  method is stated against the pure functions of the modules above.

`GLfloat` is modelled as `real`, so rounding is not modelled. The player's
radius, `sqrt(0.64*3)/2` in the source, is a parameter. The collision test
`length(d) < radius - 0.1` is stated without a square root: it holds exactly
when `radius - 0.1 > 0` and the squared length of `d` is below
`(radius - 0.1)^2`. The values of `rand()` and `glfwGetTime()` are
parameters. `draws` holds the values the count loop consumes, `picks` those
the picking loop consumes, and `clock` is the time reading of a frame.

Line 1058 of game.cpp assigns `player.gravitypower = -0.1`, but `PLAYER` has
no such member, so the file does not compile as shown. The model follows the
evident intent: an airborne frame resets the global `gravitypower` to -0.1
before calling `gravity`. See "## Findings".

## Model

| member | source | states |
|---|---|---|
| Entities.GridBounds | game.cpp:1252-1276 | Cube k of the grid is at rest at height 0. Its x lies between those of cubes 0 and 9 (-10 and 8.9), and its z between those of cubes 99 and 1 (-12.9 and 6), so the clamp box is non-empty and contains every cube centre |
| Entities.CreateCube | game.cpp:781-788 | A created cube sits at the given position with direction 1, not moving and not missing |
| Entities.MakePlayer | game.cpp:551-557 | The player starts exactly 8.5 above cube 0 at x and z of cube 0, with zero velocity and the given radius, so it is above the ground test's 4 and falls first |
| Platforms.MoveCube | game.cpp:895-904 | posy changes by exactly 0.07 times the direction; the direction is reversed exactly when the new posy is above 2 or below -2; x, z, moving and missing are unchanged |
| Platforms.MoveCubeKeepsBand | game.cpp:895-904 | A cube with direction ±1, height within [-2.07, 2.07] and heading back once past a turning point keeps all of that after movecube |
| Platforms.StepCube | game.cpp:1063-1068 | The loop body turns a present moving cube into movecube of itself and leaves missing and non-moving cubes unchanged; it never changes x, z or the flags, and keeps the bounce band |
| Platforms.StepCubeKeepsPlatform | game.cpp:1063-1068 | The field invariant of cube k (grid column and row, band, only 10..89 move, exactly 3 and 15 missing, still cubes at height 0) survives a frame |
| Collision.OffsetZeroIffInside | game.cpp:924-935 | The offset from the closest box point is zero exactly when the player's centre is inside or on the box with half-extents (1, 3, 1) |
| Collision.Nudge | game.cpp:946-989 | With a zero offset the player is unchanged; otherwise exactly one coordinate moves by 0.05 and velocities and radius stay |
| Collision.YouCollide | game.cpp:921-994 | The player changes exactly when it is within radius - 0.1 of the box and its centre is outside the box; a change is a 0.05 move along one axis with velocities and radius kept |
| Collision.CollidePriority | game.cpp:946-989 | Within reach, the x axis is chosen when the offset has an x component, else y, else z, and the nudge follows the sign of that component |
| Collision.CollidePushesAway | game.cpp:946-989 | Every nudge strictly increases the squared distance from the player's centre to the box |
| Collision.CollideAll | game.cpp:1063-1080 | Colliding with the cubes in index order, skipping missing ones, never changes velocities or radius, and a field of only missing cubes leaves the player unchanged |
| Collision.CollideAllBounded | game.cpp:1063-1080 | One frame of collisions moves the player by at most 0.05 per cube in the L1 norm |
| Camera.NextView | game.cpp:374-394 | If any flag is set, exactly one is set afterwards; a one-flag state always changes; with no flag set nothing changes |
| Camera.ViewCycle | game.cpp:374-394 | The cycle is tower to top, top to player, player to tower, so three changes return a one-flag state to itself |
| Camera.ViewsAfterChanges | game.cpp:363-394 | From the initial flags (only playerview), after n changes exactly one flag is set and the mode is player, tower or top as n mod 3 is 0, 1 or 2 |
| Camera.CameraStep | game.cpp:1002-1043 | Tower view: eye z becomes 0, fov 70, and eye x and y each gain 0.3 exactly while below 12 and 15. Top view: fov 70.2, eye x loses 0.3 while above 0, eye y and z gain 0.3 while below 30 and 1. Player view: eye at player + (0, 5, 7). No flag set: nothing changes |
| Camera.CameraTracksPlayer | game.cpp:1002-1043 | The player view puts the eye at target + (0, 5, 7); the tower and player views look at the player, the top view at the origin |
| Camera.TowerViewCreeps | game.cpp:1002-1015 | In the tower view the eye never moves back in x or y, and after n frames x >= min(12, x0 + 0.3n) and y >= min(15, y0 + 0.3n) |
| Camera.TopViewCreeps | game.cpp:1017-1032 | In the top view the eye never moves away from its resting place: after n frames x <= max(0, x0 - 0.3n), y >= min(30, y0 + 0.3n), z >= min(1, z0 + 0.3n) |
| Controls.KeyMove | game.cpp:407-426 | An arrow key on press or repeat moves along one axis only: LEFT gives posx >= cube 0's x, RIGHT posx <= cube 9's x, UP posz >= cube 99's z, DOWN posz <= cube 1's z. The full 0.2 step is taken exactly when it stays within that bound, and otherwise the coordinate is set to the bound itself. posy, velocities and radius never change, and any other key or a release leaves the player unchanged |
| Controls.KeyMoveStaysInBox | game.cpp:407-426 | One key event keeps a player inside a non-empty clamp box |
| Controls.KeyMovesStayInBox | game.cpp:395-459 | Any sequence of key events keeps a player in a non-empty box inside it, with its height and velocities unchanged |
| Physics.GravityStep | game.cpp:911-918 | vely gains gravitypower times the time since the last step, posy then gains the new vely, and both clocks become the reading |
| Physics.FallStep | game.cpp:1051-1060 | A player at most 4 above cube 0 gets vely 0 and keeps its height, gravitypower becomes 0 and the clocks stay. Otherwise gravitypower becomes -0.1, vely gains -0.1·dt, posy gains the new vely and timethen becomes the reading |
| Physics.FallingAccelerates | game.cpp:911-918 | An airborne player that is not rising falls faster and lower in every frame in which time has passed |
| Physics.FallStepAsWritten | game.cpp:1051-1060 | With line 1058 read as having no effect: a grounded frame is as intended, but an airborne frame keeps the old gravitypower and uses it for the velocity step; it agrees with the intended step whenever gravitypower is still -0.1 |
| Physics.AsWrittenFloatsAfterLanding | game.cpp:1051-1060 | If line 1058 leaves the global alone, a player lifted back above the ground after landing keeps vely 0, whereas the intended step gives it -0.1·dt |
| Game.MovingCount | game.cpp:1266-1268 | The rejection loop returns the first draw whose residue mod 30 is at least 10; the count is in 10..29 and every earlier draw was rejected |
| Game.PickedSetInRange | game.cpp:1269-1274 | Only cubes 10..89 can be marked moving |
| Game.World.ClampBox | game.cpp:407-426 | Under the field invariant the keys clamp against the box x in [-10, 8.9], z in [-12.9, 6], which is non-empty |
| Game.World.constructor | game.cpp:1252-1276 | Cube 10j+i is at x = -10 + 2.1i, y = 0, z = 6 - 2.1j with direction 1. It is moving exactly when picked among the first `count` picks, and missing exactly for 3 and 15. Only playerview is set, the player sits above cube 0 and gravitypower is -0.1 |
| Game.World.ChangeView | game.cpp:374-394 | The flags become NextView of the old flags, keeping exactly one flag set |
| Game.World.Keyboard | game.cpp:395-459 | Escape on a press asks to quit; T on a press changes the view. The player becomes KeyMove of the old player within the field's clamp box, so a player in the box stays in it |
| Game.World.Gravity | game.cpp:911-918 | The player and clocks become GravityStep of the old ones |
| Game.World.Draw | game.cpp:1002-1080 | The camera becomes CameraStep and the fall globals become FallStep. Every cube becomes StepCube of itself, so missing and non-moving cubes are untouched. The player becomes CollideAll of the fallen player over the new cubes, and the field invariant is kept |
| Game.World.CubeLoop | game.cpp:1063-1080 | Index by index, each present moving cube is moved and the player is collided with each present cube |

## Findings

| source | as written | input that shows it | evidently intended | confidence | as-written member | corrected member |
|---|---|---|---|---|---|---|
| game.cpp:1058 | `player.gravitypower = -0.1;` names a member `PLAYER` lacks, so the file does not compile. If the line is read as having no effect (Physics.FallStepAsWritten), a grounded frame sets the global `gravitypower` to 0 and nothing restores it | A player grounded at height 4 and then lifted to 4.5, with a 2 s clock: as written vely stays 0; intended, vely becomes -0.2 | Reset the global `gravitypower` to -0.1 before `gravity()` | high that it does not compile; not executed | Physics.AsWrittenFloatsAfterLanding | Physics.FallStep |

## Left out

- Rendering is not modelled. This covers shader loading, textures, VAO creation and drawing, the GLFW window and callbacks, `main`'s loop, `reshapeWindow`, `quit`, and the matrix and uniform code of `draw`. It is library plumbing with no game state.
- `getRGBfromHue`, `mouseButton`, the rotation globals, `create_sea`, the sea grid set-up and `createaxis` are not modelled. They do not affect the game state.
- Escape and `quit` are not modelled beyond the `quit` result of `Keyboard`. The `keyboardChar` callback, whose `Q` key also quits, is not modelled. Process exit is outside the model.
- Diagnostics written to standard output are not modelled.
- Float rounding is not modelled. Positions are exact reals, so `positionx += 2.1` gives exactly -10 + 2.1i and the bounce heights are exact.
- Entities.MakePlayer takes the radius as a parameter instead of `sqrt(1.92)/2`. The collision test compares squares.
- Camera.CameraSteps assumes the player stands still across the frames it counts. The creep lemmas depend only on the eye.
- The `GLint` width of `cube.direction` is not modelled. The model proves the direction stays ±1, so no overflow can arise.
- Game.MovingCount and Game.World.constructor assume that the given `draws` contain a value whose residue mod 30 is at least 10. On a `rand()` stream with no such value, the source's count loop (game.cpp:1266-1268) would never end, and the model does not cover that case.
