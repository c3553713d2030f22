/** The rules of a match between two fighters: the frame step of the render
    loop (P1 updates before P2), the win rule with its tie-break and the input
    poll. */
module MatchRules {
  import opened FighterRules

  /** Both fighters and whether the render loop is still scheduled. */
  datatype Session = Session(p1: FighterState, p2: FighterState, running: bool)

  datatype Player = P1 | P2

  /** What the end-of-frame check decides. */
  datatype Verdict = Continue | Winner(who: Player)

  /** The key names bound to one fighter. */
  datatype Controls = Controls(left: string, right: string, jump: string, attack: string)

  const P1Controls: Controls := Controls("a", "d", "w", "s")
  const P2Controls: Controls := Controls("arrowleft", "arrowright", "arrowup", "enter")
  const WalkStep: int := 5
  const JumpVelocity: real := -18.0

  /** A fresh match: P1 on the left is human, P2 on the right is the AI when no
      sprite was uploaded for it. */
  function Start(p2IsAI: bool): Session {
    Session(Initial(Left, false), Initial(Right, p2IsAI), true)
  }

  /** The end-of-frame check: the match ends once either health is at most
      zero, and P2 wins whenever P1 is down, a double knock-out included. */
  function Judge(p1Health: int, p2Health: int): (v: Verdict)
    ensures v == Continue <==> p1Health > 0 && p2Health > 0
    ensures v == Winner(P2) <==> p1Health <= 0
    ensures v == Winner(P1) <==> p1Health > 0 && p2Health <= 0
  {
    if p1Health <= 0 || p2Health <= 0 then Winner(if p1Health <= 0 then P2 else P1)
    else Continue
  }

  /** The winner the alert names, read from the fighters' health at the time
      the alert fires rather than at the frame that ended the match. */
  function Announced(s: Session): Player {
    if s.p1.health <= 0 then P2 else P1
  }

  /** One call of `animate`: P1 updates against P2, then P2 updates against
      the P1 that has just moved; the loop stays scheduled unless the check
      ends the match. A frame that is no longer scheduled changes nothing. */
  function FrameStep(s: Session, arenaHeight: int): (r: Session)
    ensures !s.running ==> r == s
    ensures s.running ==> (r.running <==> r.p1.health > 0 && r.p2.health > 0)
    ensures s.running ==> AboveFloor(r.p1, arenaHeight) && AboveFloor(r.p2, arenaHeight)
    ensures SameBody(r.p1, s.p1) && SameBody(r.p2, s.p2)
    ensures r.p1.health <= s.p1.health && r.p2.health <= s.p2.health
  {
    if !s.running then s
    else
      var first := Update(s.p1, s.p2, arenaHeight);
      var second := Update(first.opp, first.me, arenaHeight);
      Session(second.opp, second.me, Judge(second.opp.health, second.me.health) == Continue)
  }

  /** Sideways movement and the jump of one fighter: each walk key moves it by
      `WalkStep`, and the jump key sets the upward velocity only when grounded. */
  function Steer(f: FighterState, keys: set<string>, c: Controls, arenaHeight: int): (r: FighterState)
    ensures r.x - f.x == (if c.right in keys then WalkStep else 0) - (if c.left in keys then WalkStep else 0)
    ensures r.velocity == JumpVelocity <== c.jump in keys && Grounded(f, arenaHeight)
    ensures r.velocity != f.velocity ==> c.jump in keys && Grounded(f, arenaHeight)
    ensures r == f.(x := r.x, velocity := r.velocity)
  {
    var x1 := if c.left in keys then f.x - WalkStep else f.x;
    var x2 := if c.right in keys then x1 + WalkStep else x1;
    f.(x := x2, velocity := if c.jump in keys && Grounded(f, arenaHeight) then JumpVelocity else f.velocity)
  }

  /** The attack key forwards to `attack`. */
  function Strike(f: FighterState, target: FighterState, keys: set<string>, key: string): Exchange {
    if key in keys then Attack(f, target) else Exchange(f, target)
  }

  predicate InArena(f: FighterState, arenaWidth: int) {
    0 <= f.x && (f.width <= arenaWidth ==> f.x <= arenaWidth - f.width)
  }

  /** Keeps a fighter's x inside `[0, arenaWidth - width]`: the upper bound is
      applied first, then the lower one. */
  function ClampX(f: FighterState, arenaWidth: int): (r: FighterState)
    ensures InArena(r, arenaWidth)
    ensures 0 <= f.x && f.x <= arenaWidth - f.width ==> r == f
    ensures f.width > arenaWidth ==> r.x == 0
    ensures f.x < 0 ==> r.x == 0
    ensures 0 <= arenaWidth - f.width < f.x ==> r.x == arenaWidth - f.width
    ensures r == f.(x := r.x)
  {
    var upper := if f.x < arenaWidth - f.width then f.x else arenaWidth - f.width;
    f.(x := if 0 < upper then upper else 0)
  }

  /** One call of `handleInput`: nothing while P1 is down; otherwise P1's
      keys, then (unless P2 is the AI) P2's keys, then both x clamped. */
  function HandleInput(s: Session, keys: set<string>, arenaWidth: int, arenaHeight: int): (r: Session)
    ensures s.p1.health <= 0 ==> r == s
    ensures s.p1.health > 0 ==> InArena(r.p1, arenaWidth) && InArena(r.p2, arenaWidth)
    ensures r.running == s.running && r.p1.y == s.p1.y && r.p2.y == s.p2.y
    ensures SameBody(r.p1, s.p1) && SameBody(r.p2, s.p2)
    ensures r.p1.velocity == if s.p1.health > 0 && P1Controls.jump in keys && Grounded(s.p1, arenaHeight)
                             then JumpVelocity else s.p1.velocity
    ensures r.p2.velocity == if s.p1.health > 0 && !s.p2.isAI && P2Controls.jump in keys && Grounded(s.p2, arenaHeight)
                             then JumpVelocity else s.p2.velocity
    // the AI fighter is never driven by the keyboard
    ensures s.p2.isAI ==> r.p2.cooldown == s.p2.cooldown && r.p1.health == s.p1.health
    // damage is dealt only through an attack key, by a fighter whose cooldown has run out
    ensures r.p2.health == s.p2.health ||
            (r.p2.health == s.p2.health - Damage && P1Controls.attack in keys &&
             s.p1.cooldown <= 0 && r.p1.cooldown == CooldownFrames)
    ensures r.p1.health == s.p1.health ||
            (r.p1.health == s.p1.health - Damage && P2Controls.attack in keys && !s.p2.isAI &&
             s.p2.cooldown <= 0 && r.p2.cooldown == CooldownFrames)
    // a fighter's cooldown restarts exactly when its attack lands
    ensures r.p1.cooldown == if r.p2.health < s.p2.health then CooldownFrames else s.p1.cooldown
    ensures r.p2.cooldown == if r.p1.health < s.p1.health then CooldownFrames else s.p2.cooldown
  {
    if s.p1.health <= 0 then s
    else
      var first := Strike(Steer(s.p1, keys, P1Controls, arenaHeight), s.p2, keys, P1Controls.attack);
      var second :=
        if !first.opp.isAI then
          Strike(Steer(first.opp, keys, P2Controls, arenaHeight), first.me, keys, P2Controls.attack)
        else
          Exchange(first.opp, first.me);
      Session(ClampX(second.opp, arenaWidth), ClampX(second.me, arenaWidth), s.running)
  }

  /** What the walk and attack keys do in `HandleInput`: each human fighter
      walks by its own keys and is then clamped into the arena; an AI P2 is
      only clamped. An attack key lands exactly when the attacker is ready and,
      after its own step, within reach of its target. */
  lemma HandleInputKeys(s: Session, keys: set<string>, arenaWidth: int, arenaHeight: int)
    // each fighter walks by its own keys (an AI P2 does not), then is clamped
    ensures s.p1.health > 0 ==>
              HandleInput(s, keys, arenaWidth, arenaHeight).p1.x == ClampX(Steer(s.p1, keys, P1Controls, arenaHeight), arenaWidth).x
    ensures s.p1.health > 0 && !s.p2.isAI ==>
              HandleInput(s, keys, arenaWidth, arenaHeight).p2.x == ClampX(Steer(s.p2, keys, P2Controls, arenaHeight), arenaWidth).x
    ensures s.p1.health > 0 && 0 <= Steer(s.p1, keys, P1Controls, arenaHeight).x <= arenaWidth - s.p1.width ==>
              HandleInput(s, keys, arenaWidth, arenaHeight).p1.x == Steer(s.p1, keys, P1Controls, arenaHeight).x
    ensures s.p1.health > 0 && s.p2.isAI ==> HandleInput(s, keys, arenaWidth, arenaHeight).p2.x == ClampX(s.p2, arenaWidth).x
    // an attack key lands exactly when the attacker is ready and, after its own step, in reach
    ensures HandleInput(s, keys, arenaWidth, arenaHeight).p2.health < s.p2.health <==>
              s.p1.health > 0 && P1Controls.attack in keys && s.p1.cooldown <= 0 &&
              InReach(Steer(s.p1, keys, P1Controls, arenaHeight), s.p2)
    ensures HandleInput(s, keys, arenaWidth, arenaHeight).p1.health < s.p1.health <==>
              s.p1.health > 0 && !s.p2.isAI && P2Controls.attack in keys && s.p2.cooldown <= 0 &&
              InReach(Steer(s.p2, keys, P2Controls, arenaHeight), Steer(s.p1, keys, P1Controls, arenaHeight))
  {
  }

}
