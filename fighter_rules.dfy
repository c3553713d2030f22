/** The rules that govern one fighter in one frame: gravity against the floor,
    the cooldown-gated melee attack and the distance-based AI, stated on a
    value snapshot of a fighter's fields. The class `Game.Fighter` is proved to
    follow these rules field by field. */
module FighterRules {

  datatype Side = Left | Right

  /** The fields of one fighter that the game logic reads or writes. The
      display name and the sprite are for rendering only and are left out. */
  datatype FighterState = FighterState(
    side: Side,
    isAI: bool,
    width: int,
    height: int,
    x: int,
    y: real,
    velocity: real,
    health: int,
    cooldown: int)

  /** The two fighters as one fighter's action leaves them: `me` acted, `opp` was its opponent. */
  datatype Exchange = Exchange(me: FighterState, opp: FighterState)

  const StartHealth: int := 100
  const LeftStartX: int := 150
  const RightStartX: int := 550
  const StartY: real := 220.0
  const FighterWidth: int := 80
  const FighterHeight: int := 160
  /** Height of the floor strip at the bottom of the arena. */
  const FloorThickness: int := 50
  const Gravity: real := 0.8
  /** The AI walks towards its opponent while their x coordinates are further apart than this. */
  const ChaseDistance: int := 120
  const AIStep: int := 4
  /** An attack connects when the centres are closer than this. */
  const Reach: real := 90.0
  const Damage: int := 12
  const CooldownFrames: int := 30

  function Abs(n: int): nat {
    if n < 0 then -n else n
  }

  /** A fighter as the constructor creates it. */
  function Initial(side: Side, isAI: bool): FighterState {
    FighterState(side, isAI, FighterWidth, FighterHeight,
                 if side == Left then LeftStartX else RightStartX,
                 StartY, 0.0, StartHealth, 0)
  }

  /** The y coordinate of the top of the floor strip. */
  function FloorLine(arenaHeight: int): real {
    (arenaHeight - FloorThickness) as real
  }

  /** Standing on (or sunk into) the floor: the condition under which a jump is allowed. */
  predicate Grounded(f: FighterState, arenaHeight: int) {
    f.y + f.height as real >= FloorLine(arenaHeight)
  }

  /** Not sunk below the floor line. */
  predicate AboveFloor(f: FighterState, arenaHeight: int) {
    f.y + f.height as real <= FloorLine(arenaHeight)
  }

  /** The fields fixed at construction agree. */
  predicate SameBody(a: FighterState, b: FighterState) {
    a.side == b.side && a.isAI == b.isAI && a.width == b.width && a.height == b.height
  }

  /** Horizontal distance between the centres of the two bounding boxes. */
  function CentreDistance(a: FighterState, b: FighterState): real {
    var d := (a.x as real + a.width as real / 2.0) - (b.x as real + b.width as real / 2.0);
    if d < 0.0 then -d else d
  }

  predicate InReach(a: FighterState, b: FighterState) {
    CentreDistance(a, b) < Reach
  }

  /** An attack by `me` on `opp` lands: the cooldown has run out and the opponent is in reach. */
  predicate Connects(me: FighterState, opp: FighterState) {
    me.cooldown <= 0 && InReach(me, opp)
  }

  /** The gravity step: move by the velocity, then either land on the floor
      (velocity reset) or keep falling (velocity grows by `Gravity`). */
  function Fall(f: FighterState, arenaHeight: int): (r: FighterState)
    ensures AboveFloor(r, arenaHeight)
    ensures r == f.(y := r.y, velocity := r.velocity)
    ensures if f.y + f.velocity + f.height as real <= FloorLine(arenaHeight)
            then r.y == f.y + f.velocity && r.velocity == f.velocity + Gravity
            else Grounded(r, arenaHeight) && r.velocity == 0.0
  {
    var y := f.y + f.velocity;
    if y + f.height as real > FloorLine(arenaHeight) then
      f.(y := FloorLine(arenaHeight) - f.height as real, velocity := 0.0)
    else
      f.(y := y, velocity := f.velocity + Gravity)
  }

  /** `attack`: a no-op while cooling down; otherwise, when the opponent is in
      reach, it takes `Damage` health from the opponent and starts the cooldown. */
  function Attack(me: FighterState, opp: FighterState): (r: Exchange)
    ensures me.cooldown > 0 ==> r == Exchange(me, opp)
    ensures r.opp.health < opp.health <==> Connects(me, opp)
    ensures Connects(me, opp) ==>
              r.opp.health == opp.health - Damage && r.me.cooldown == CooldownFrames
    ensures !Connects(me, opp) ==> r == Exchange(me, opp)
    ensures r.me == me.(cooldown := r.me.cooldown) && r.opp == opp.(health := r.opp.health)
    ensures 0 <= me.cooldown <= CooldownFrames ==> 0 <= r.me.cooldown <= CooldownFrames
  {
    if me.cooldown > 0 then Exchange(me, opp)
    else if CentreDistance(me, opp) < Reach then
      Exchange(me.(cooldown := CooldownFrames), opp.(health := opp.health - Damage))
    else Exchange(me, opp)
  }

  /** One frame of `update` for `me` against `opp`: gravity, then (for an AI
      fighter whose cooldown is zero) a step towards the opponent or an attack,
      then one frame off the cooldown. */
  function Update(me: FighterState, opp: FighterState, arenaHeight: int): (r: Exchange)
    // gravity and the floor clamp
    ensures AboveFloor(r.me, arenaHeight)
    ensures r.me.y == Fall(me, arenaHeight).y && r.me.velocity == Fall(me, arenaHeight).velocity
    // what an update may touch
    ensures SameBody(r.me, me) && r.me.health == me.health
    ensures r.opp == opp.(health := r.opp.health)
    // the cooldown
    ensures me.cooldown > 0 ==> r.me.cooldown == me.cooldown - 1 && r.me.x == me.x && r.opp == opp
    ensures r.me.cooldown == if r.opp.health < opp.health then CooldownFrames - 1
                             else if me.cooldown > 0 then me.cooldown - 1
                             else me.cooldown
    ensures 0 <= me.cooldown <= CooldownFrames ==> 0 <= r.me.cooldown < CooldownFrames
    // a human fighter's update never moves it sideways nor touches the opponent
    ensures !me.isAI ==> r.me.x == me.x && r.opp == opp
    // only a ready fighter can move sideways
    ensures me.cooldown != 0 ==> r.me.x == me.x
    // the AI: chase while far, attack when near
    ensures me.isAI && me.cooldown == 0 && Abs(me.x - opp.x) > ChaseDistance ==>
              r.me.x == me.x + (if me.side == Left then AIStep else -AIStep) &&
              r.opp == opp && r.me.cooldown == 0
    ensures me.isAI && me.cooldown == 0 && Abs(me.x - opp.x) <= ChaseDistance ==>
              r.me.x == me.x &&
              (r.opp.health < opp.health <==> InReach(me, opp)) &&
              r.me.cooldown == (if InReach(me, opp) then CooldownFrames - 1 else 0)
    // every hit costs a full cooldown
    ensures r.opp.health == opp.health ||
            (r.opp.health == opp.health - Damage && me.cooldown == 0 &&
             r.me.cooldown == CooldownFrames - 1)
  {
    var f := Fall(me, arenaHeight);
    var acted :=
      if f.isAI && f.cooldown == 0 then
        if Abs(f.x - opp.x) > ChaseDistance then
          Exchange(f.(x := f.x + if f.side == Left then AIStep else -AIStep), opp)
        else
          Attack(f, opp)
      else
        Exchange(f, opp);
    var m := acted.me;
    Exchange(if m.cooldown > 0 then m.(cooldown := m.cooldown - 1) else m, acted.opp)
  }
}
