/**
 * The arrow-key branches of the `keyboard` callback (game.cpp:395-459):
 * on a press or a repeat, an arrow key moves the player 0.2 along x or z
 * and then clamps it against the centre of an edge cube of the field.
 */
module Controls {
  import opened Entities

  /** The keys the callback distinguishes; every other key is `Other`. */
  datatype Key = Escape | T | Up | Down | Left | Right | Other

  /** GLFW_PRESS, GLFW_REPEAT, GLFW_RELEASE. */
  datatype Action = Press | Repeat | Release

  /** Distance moved per key event. */
  const Stride := 0.2

  /**
   * The clamp bounds: LEFT stops at `minx` (cube 0), RIGHT at `maxx` (cube 9),
   * UP at `minz` (cube 99) and DOWN at `maxz` (cube 1).
   */
  datatype Box = Box(minx: real, maxx: real, minz: real, maxz: real)

  /** The box the start-up grid gives (see Entities.GridBounds). */
  const FieldBox := Box(-10.0, 8.9, -12.9, 6.0)

  predicate NonEmpty(b: Box) {
    b.minx <= b.maxx && b.minz <= b.maxz
  }

  predicate InBox(p: Player, b: Box) {
    b.minx <= p.posx <= b.maxx && b.minz <= p.posz <= b.maxz
  }

  /** An arrow key that moves the player under this action. */
  predicate Moves(key: Key, action: Action) {
    action != Release && key in {Up, Down, Left, Right}
  }

  /** The player after one key event: step 0.2, then clamp that one side. */
  function KeyMove(p: Player, key: Key, action: Action, b: Box): (r: Player)
    ensures r.posy == p.posy && r.radius == p.radius
    ensures r.velx == p.velx && r.vely == p.vely && r.velz == p.velz
    ensures !Moves(key, action) ==> r == p
    ensures Moves(key, action) && (key == Left || key == Right) ==> r.posz == p.posz
    ensures Moves(key, action) && (key == Up || key == Down) ==> r.posx == p.posx
    ensures Moves(key, action) && key == Left ==> b.minx <= r.posx
    ensures Moves(key, action) && key == Right ==> r.posx <= b.maxx
    ensures Moves(key, action) && key == Up ==> b.minz <= r.posz
    ensures Moves(key, action) && key == Down ==> r.posz <= b.maxz
    ensures Moves(key, action) && key == Left ==> r.posx == (if p.posx - Stride < b.minx then b.minx else p.posx - Stride)
    ensures Moves(key, action) && key == Right ==> r.posx == (if p.posx + Stride > b.maxx then b.maxx else p.posx + Stride)
    ensures Moves(key, action) && key == Up ==> r.posz == (if p.posz - Stride < b.minz then b.minz else p.posz - Stride)
    ensures Moves(key, action) && key == Down ==> r.posz == (if p.posz + Stride > b.maxz then b.maxz else p.posz + Stride)
  {
    if action == Release then p
    else
      match key
      case Up =>
        var q := p.(posz := p.posz - Stride);
        if q.posz < b.minz then q.(posz := b.minz) else q
      case Down =>
        var q := p.(posz := p.posz + Stride);
        if q.posz > b.maxz then q.(posz := b.maxz) else q
      case Left =>
        var q := p.(posx := p.posx - Stride);
        if q.posx < b.minx then q.(posx := b.minx) else q
      case Right =>
        var q := p.(posx := p.posx + Stride);
        if q.posx > b.maxx then q.(posx := b.maxx) else q
      case _ => p
  }

  /** One key event keeps a player inside a non-empty box. */
  lemma KeyMoveStaysInBox(p: Player, key: Key, action: Action, b: Box)
    requires NonEmpty(b) && InBox(p, b)
    ensures InBox(KeyMove(p, key, action, b), b)
  {
  }

  /** The player after a sequence of key events, oldest first. */
  function KeyMoves(p: Player, events: seq<(Key, Action)>, b: Box): Player
    decreases |events|
  {
    if events == [] then p
    else KeyMoves(KeyMove(p, events[0].0, events[0].1, b), events[1..], b)
  }

  /** Any sequence of key events keeps a player inside a non-empty box, and leaves its height and velocities alone. */
  lemma {:induction false} KeyMovesStayInBox(p: Player, events: seq<(Key, Action)>, b: Box)
    requires NonEmpty(b) && InBox(p, b)
    ensures var r := KeyMoves(p, events, b);
      InBox(r, b) && r.posy == p.posy && r.vely == p.vely && r.velx == p.velx && r.velz == p.velz
    decreases |events|
  {
    if events != [] {
      var q := KeyMove(p, events[0].0, events[0].1, b);
      KeyMoveStaysInBox(p, events[0].0, events[0].1, b);
      KeyMovesStayInBox(q, events[1..], b);
    }
  }
}
