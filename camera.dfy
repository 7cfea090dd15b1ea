/**
 * Camera modes: the view-flag cycle `changeview` (game.cpp:374-394), the
 * initial flags (game.cpp:363-365) and the per-frame eye update at the top
 * of `draw` (game.cpp:1002-1043).
 */
module Camera {
  import opened Numbers
  import opened Entities

  /** The three view flags towerview, topview and playerview. */
  datatype Views = Views(tower: bool, top: bool, player: bool)

  const TowerView := Views(true, false, false)
  const TopView := Views(false, true, false)
  const PlayerView := Views(false, false, true)

  /** The flags at start-up: only playerview is set. */
  const InitialViews := PlayerView

  predicate ExactlyOne(v: Views) {
    v == TowerView || v == TopView || v == PlayerView
  }

  /**
   * changeview: tower goes to top, top to player, player to tower; each
   * branch writes all three flags, and with no flag set nothing changes.
   */
  function NextView(v: Views): (r: Views)
    ensures v.tower || v.top || v.player ==> ExactlyOne(r)
    ensures !(v.tower || v.top || v.player) ==> r == v
    ensures ExactlyOne(v) ==> r != v
  {
    if v.tower then Views(false, true, false)
    else if v.top then Views(false, false, true)
    else if v.player then Views(true, false, false)
    else v
  }

  /** The cycle order, and a full cycle of three changes returns to the start. */
  lemma ViewCycle(v: Views)
    requires ExactlyOne(v)
    ensures NextView(TowerView) == TopView && NextView(TopView) == PlayerView && NextView(PlayerView) == TowerView
    ensures NextView(NextView(NextView(v))) == v
  {
  }

  /** changeview applied n times. */
  function ViewsAfter(v: Views, n: nat): Views {
    if n == 0 then v else NextView(ViewsAfter(v, n - 1))
  }

  /** From the start-up flags, exactly one flag is set however often the view is changed, and the mode after n changes is fixed by n mod 3. */
  lemma {:induction false} ViewsAfterChanges(n: nat)
    ensures ExactlyOne(ViewsAfter(InitialViews, n))
    ensures ViewsAfter(InitialViews, n) == [PlayerView, TowerView, TopView][n % 3]
  {
    if n > 0 {
      ViewsAfterChanges(n - 1);
    }
  }

  /** The camera globals: eye position, target and field of view. */
  datatype Eye = Eye(eyex: real, eyey: real, eyez: real, tarx: real, tary: real, tarz: real, fov: real)

  /** Distance the eye creeps per frame towards its resting place. */
  const Creep := 0.3

  /** The tower and top views' field of view. */
  const TowerFov := 70.0
  const TopFov := 70.2

  /**
   * The camera part of `draw`: the tower view creeps the eye to at least
   * (12, 15) and looks at the player; the top view creeps it to x <= 0,
   * y >= 30, z >= 1 and looks at the origin; the player view sits 5 above
   * and 7 behind the player and looks at it.
   */
  function CameraStep(v: Views, e: Eye, p: Player): (r: Eye)
    ensures v.tower ==>
      && r.eyez == 0.0 && r.fov == TowerFov
      && (r.eyex == e.eyex + Creep <==> e.eyex < 12.0) && (r.eyex == e.eyex <==> e.eyex >= 12.0)
      && (r.eyey == e.eyey + Creep <==> e.eyey < 15.0) && (r.eyey == e.eyey <==> e.eyey >= 15.0)
    ensures !v.tower && v.top ==>
      && r.fov == TopFov
      && (r.eyex == e.eyex - Creep <==> e.eyex > 0.0) && (r.eyex == e.eyex <==> e.eyex <= 0.0)
      && (r.eyey == e.eyey + Creep <==> e.eyey < 30.0) && (r.eyey == e.eyey <==> e.eyey >= 30.0)
      && (r.eyez == e.eyez + Creep <==> e.eyez < 1.0) && (r.eyez == e.eyez <==> e.eyez >= 1.0)
    ensures !v.tower && !v.top && v.player ==>
      && r.fov == e.fov
      && r.eyex == p.posx && r.eyey == p.posy + 5.0 && r.eyez == p.posz + 7.0
    ensures !v.tower && !v.top && !v.player ==> r == e
  {
    if v.tower then
      e.(eyex := if e.eyex < 12.0 then e.eyex + Creep else e.eyex,
         eyey := if e.eyey < 15.0 then e.eyey + Creep else e.eyey,
         eyez := 0.0,
         tarx := p.posx, tary := p.posy, tarz := p.posz,
         fov := TowerFov)
    else if v.top then
      e.(eyex := if e.eyex > 0.0 then e.eyex - Creep else e.eyex,
         eyey := if e.eyey < 30.0 then e.eyey + Creep else e.eyey,
         eyez := if e.eyez < 1.0 then e.eyez + Creep else e.eyez,
         tarx := 0.0, tary := 0.0, tarz := 0.0,
         fov := TopFov)
    else if v.player then
      e.(eyex := p.posx, eyey := p.posy + 5.0, eyez := p.posz + 7.0,
         tarx := p.posx, tary := p.posy, tarz := p.posz)
    else e
  }

  /** The eye after n frames in the same view with the player standing still. */
  function CameraSteps(v: Views, e: Eye, p: Player, n: nat): Eye {
    if n == 0 then e else CameraStep(v, CameraSteps(v, e, p, n - 1), p)
  }

  /** The player view follows the player at the fixed offset (0, 5, 7); the tower view aims at the player. */
  lemma CameraTracksPlayer(v: Views, e: Eye, p: Player)
    requires ExactlyOne(v)
    ensures var r := CameraStep(v, e, p);
      && (v == PlayerView ==> r.eyex - r.tarx == 0.0 && r.eyey - r.tary == 5.0 && r.eyez - r.tarz == 7.0)
      && (v != TopView ==> r.tarx == p.posx && r.tary == p.posy && r.tarz == p.posz)
      && (v == TopView ==> r.tarx == 0.0 && r.tary == 0.0 && r.tarz == 0.0)
  {
  }

  /** In the tower view the eye climbs by 0.3 per frame until it is at x >= 12 and y >= 15, and never moves back. */
  lemma {:induction false} TowerViewCreeps(e: Eye, p: Player, n: nat)
    ensures var r := CameraSteps(TowerView, e, p, n);
      && r.eyex >= e.eyex && r.eyey >= e.eyey
      && r.eyex >= Min(12.0, e.eyex + Creep * n as real)
      && r.eyey >= Min(15.0, e.eyey + Creep * n as real)
  {
    if n > 0 {
      TowerViewCreeps(e, p, n - 1);
    }
  }

  /** In the top view the eye moves by 0.3 per frame until it is at x <= 0, y >= 30 and z >= 1. */
  lemma {:induction false} TopViewCreeps(e: Eye, p: Player, n: nat)
    ensures var r := CameraSteps(TopView, e, p, n);
      && r.eyex <= e.eyex && r.eyey >= e.eyey && r.eyez >= e.eyez
      && r.eyex <= Max(0.0, e.eyex - Creep * n as real)
      && r.eyey >= Min(30.0, e.eyey + Creep * n as real)
      && r.eyez >= Min(1.0, e.eyez + Creep * n as real)
  {
    if n > 0 {
      TopViewCreeps(e, p, n - 1);
    }
  }
}
