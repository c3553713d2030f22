/** The game objects as the browser program keeps them: each fighter is an
    object whose fields its own methods update in place, and the session holds
    the two global fighter references that the render loop and the input
    timer share. Every method is proved to have exactly the effect of the
    corresponding rule in `FighterRules` or `MatchRules`. */
module Game {
  import R = FighterRules
  import M = MatchRules

  class Fighter {
    const name: string
    const side: R.Side
    const isAI: bool
    const width: int
    const height: int
    var health: int
    var x: int
    var y: real
    var velocity: real
    var attackCooldown: int

    /** The fields the game logic works on, as a value. */
    function State(): R.FighterState
      reads this
    {
      R.FighterState(side, isAI, width, height, x, y, velocity, health, attackCooldown)
    }

    /** A fighter at its side's starting position with full health, at rest
        and ready to attack. */
    constructor (name: string, side: R.Side, isAI: bool)
      ensures this.name == name
      ensures State() == R.Initial(side, isAI)
    {
      this.name := name;
      this.side := side;
      this.isAI := isAI;
      health := R.StartHealth;
      x := if side == R.Left then R.LeftStartX else R.RightStartX;
      y := R.StartY;
      width := R.FighterWidth;
      height := R.FighterHeight;
      velocity := 0.0;
      attackCooldown := 0;
    }

    /** Does nothing while cooling down; otherwise, when the opponent is in
        reach, takes health from it and starts this fighter's cooldown. */
    method Attack(opponent: Fighter)
      requires opponent != this
      modifies this`attackCooldown, opponent`health
      ensures State() == R.Attack(old(State()), old(opponent.State())).me
      ensures opponent.State() == R.Attack(old(State()), old(opponent.State())).opp
    {
      if attackCooldown > 0 {
        return;
      }
      var centre := x as real + width as real / 2.0;
      var opponentCentre := opponent.x as real + opponent.width as real / 2.0;
      var dist := if centre < opponentCentre then opponentCentre - centre else centre - opponentCentre;
      if dist < R.Reach {
        opponent.health := opponent.health - R.Damage;
        attackCooldown := R.CooldownFrames;
      }
    }

    /** The walk and jump keys of one fighter: each walk key moves it
        sideways, the jump key launches it only from the floor. */
    method Steer(keys: set<string>, controls: M.Controls, arenaHeight: int)
      modifies this`x, this`velocity
      ensures State() == M.Steer(old(State()), keys, controls, arenaHeight)
    {
      if controls.left in keys { x := x - M.WalkStep; }
      if controls.right in keys { x := x + M.WalkStep; }
      if controls.jump in keys && y + height as real >= R.FloorLine(arenaHeight) {
        velocity := M.JumpVelocity;
      }
    }

    /** Clamps x into the arena. */
    method KeepInside(arenaWidth: int)
      modifies this`x
      ensures State() == M.ClampX(old(State()), arenaWidth)
    {
      x := Max(0, Min(x, arenaWidth - width));
    }

    /** One frame: gravity against the floor, the AI's move or attack, and one
        frame off the cooldown. */
    method Update(arenaHeight: int, opponent: Fighter)
      requires opponent != this
      modifies this, opponent`health
      ensures State() == R.Update(old(State()), old(opponent.State()), arenaHeight).me
      ensures opponent.State() == R.Update(old(State()), old(opponent.State()), arenaHeight).opp
    {
      y := y + velocity;
      if y + height as real > R.FloorLine(arenaHeight) {
        y := R.FloorLine(arenaHeight) - height as real;
        velocity := 0.0;
      } else {
        velocity := velocity + R.Gravity;
      }

      if isAI && attackCooldown == 0 {
        var dist := R.Abs(x - opponent.x);
        if dist > R.ChaseDistance {
          x := x + if side == R.Left then R.AIStep else -R.AIStep;
        } else {
          Attack(opponent);
        }
      }

      if attackCooldown > 0 {
        attackCooldown := attackCooldown - 1;
      }
    }
  }

  /** The program's global state: the two fighters (absent until the first
      match starts) and whether the next animation frame is scheduled. */
  class Game {
    var p1: Fighter?
    var p2: Fighter?
    var running: bool

    /** The fighters are created together and are two distinct objects. */
    ghost predicate Valid()
      reads this
    {
      (p1 == null <==> p2 == null) && (p1 != null ==> p1 != p2)
    }

    ghost function Session(): M.Session
      reads this, p1, p2
      requires p1 != null && p2 != null
    {
      M.Session(p1.State(), p2.State(), running)
    }

    constructor ()
      ensures Valid() && p1 == null && p2 == null && !running
    {
      p1, p2, running := null, null, false;
    }

    /** Starting a match: two fresh fighters (P2 is the AI when no sprite was
        uploaded for it), then the first animation frame. */
    method InitGame(p2Uploaded: bool, arenaHeight: int) returns (verdict: M.Verdict)
      modifies this
      ensures Valid() && p1 != null && fresh(p1) && fresh(p2)
      ensures p1.name == "P1" && p2.name == "P2"
      ensures Session() == M.FrameStep(M.Start(!p2Uploaded), arenaHeight)
      ensures verdict == M.Judge(p1.health, p2.health)
    {
      p1 := new Fighter("P1", R.Left, false);
      p2 := new Fighter("P2", R.Right, !p2Uploaded);
      running := true;
      verdict := Animate(arenaHeight);
    }

    /** One scheduled animation frame: P1 updates, then P2 against the updated
        P1; if either is down the loop is not rescheduled and the verdict
        names the winner. */
    method Animate(arenaHeight: int) returns (verdict: M.Verdict)
      requires Valid() && p1 != null && running
      modifies this`running, p1, p2
      ensures Valid()
      ensures Session() == M.FrameStep(old(Session()), arenaHeight)
      ensures verdict == M.Judge(p1.health, p2.health)
      ensures running <==> verdict == M.Continue
    {
      p1.Update(arenaHeight, p2);
      p2.Update(arenaHeight, p1);
      verdict := M.Judge(p1.health, p2.health);
      if p1.health <= 0 || p2.health <= 0 {
        running := false;
      }
    }

    /** One tick of the input timer. */
    method HandleInput(keys: set<string>, arenaWidth: int, arenaHeight: int)
      requires Valid()
      modifies p1, p2
      ensures p1 != null ==> Session() == M.HandleInput(old(Session()), keys, arenaWidth, arenaHeight)
    {
      if p1 == null || p1.health <= 0 {
        return;
      }
      ghost var s0 := Session();

      p1.Steer(keys, M.P1Controls, arenaHeight);
      if M.P1Controls.attack in keys { p1.Attack(p2); }
      ghost var first := M.Strike(M.Steer(s0.p1, keys, M.P1Controls, arenaHeight), s0.p2, keys, M.P1Controls.attack);
      assert p1.State() == first.me && p2.State() == first.opp;

      if p2 != null && !p2.isAI {
        p2.Steer(keys, M.P2Controls, arenaHeight);
        if M.P2Controls.attack in keys { p2.Attack(p1); }
      }
      ghost var second :=
        if !first.opp.isAI then
          M.Strike(M.Steer(first.opp, keys, M.P2Controls, arenaHeight), first.me, keys, M.P2Controls.attack)
        else
          R.Exchange(first.opp, first.me);
      assert p1.State() == second.opp && p2.State() == second.me;

      p1.KeepInside(arenaWidth);
      if p2 != null {
        p2.KeepInside(arenaWidth);
      }
    }
  }

  function Min(a: int, b: int): int {
    if a < b then a else b
  }

  function Max(a: int, b: int): int {
    if a > b then a else b
  }
}
