/** Runs of a match: the render loop and the input timer are scheduled
    independently, so a match is any interleaving of animation frames and
    input polls. The lemmas here hold for every such interleaving. */
module MatchRuns {
  import opened FighterRules
  import opened MatchRules

  datatype Event = AnimationFrame | InputPoll(keys: set<string>)

  function Step(s: Session, e: Event, arenaWidth: int, arenaHeight: int): Session {
    match e
    case AnimationFrame => FrameStep(s, arenaHeight)
    case InputPoll(keys) => HandleInput(s, keys, arenaWidth, arenaHeight)
  }

  function Run(s: Session, events: seq<Event>, arenaWidth: int, arenaHeight: int): Session
    decreases |events|
  {
    if events == [] then s
    else Run(Step(s, events[0], arenaWidth, arenaHeight), events[1..], arenaWidth, arenaHeight)
  }

  function FrameCount(events: seq<Event>): nat {
    if events == [] then 0
    else (if events[0] == AnimationFrame then 1 else 0) + FrameCount(events[1..])
  }

  /** `n` animation frames and no input. */
  function Frames(n: nat): seq<Event> {
    if n == 0 then [] else [AnimationFrame] + Frames(n - 1)
  }

  predicate CooldownsInRange(s: Session) {
    0 <= s.p1.cooldown <= CooldownFrames && 0 <= s.p2.cooldown <= CooldownFrames
  }

  predicate BothAboveFloor(s: Session, arenaHeight: int) {
    AboveFloor(s.p1, arenaHeight) && AboveFloor(s.p2, arenaHeight)
  }

  /** The invariants of a match: construction-time fields never change, health
      never rises, cooldowns stay within `[0, CooldownFrames]`, no fighter sinks
      below the floor, and a match that has ended is never restarted. */
  lemma {:induction false} RunKeepsInvariants(s: Session, events: seq<Event>, arenaWidth: int, arenaHeight: int)
    ensures var r := Run(s, events, arenaWidth, arenaHeight);
      SameBody(r.p1, s.p1) && SameBody(r.p2, s.p2) &&
      r.p1.health <= s.p1.health && r.p2.health <= s.p2.health &&
      (CooldownsInRange(s) ==> CooldownsInRange(r)) &&
      (BothAboveFloor(s, arenaHeight) ==> BothAboveFloor(r, arenaHeight)) &&
      (!s.running ==> !r.running)
    decreases |events|
  {
    if events != [] {
      RunKeepsInvariants(Step(s, events[0], arenaWidth, arenaHeight), events[1..], arenaWidth, arenaHeight);
    }
  }

  /** One event of a run spends, for each fighter, the cooldown it needs to
      deal its damage: `CooldownFrames` of cooldown per `Damage` dealt. */
  lemma StepRateLimit(s: Session, e: Event, arenaWidth: int, arenaHeight: int)
    ensures var r := Step(s, e, arenaWidth, arenaHeight);
      var frames := if e == AnimationFrame then 1 else 0;
      CooldownFrames * (s.p2.health - r.p2.health) + Damage * s.p1.cooldown
        <= Damage * (frames + r.p1.cooldown) &&
      CooldownFrames * (s.p1.health - r.p1.health) + Damage * s.p2.cooldown
        <= Damage * (frames + r.p2.cooldown)
  {
  }

  /** Attacks are rate-limited however frames and polls interleave: every
      `Damage` dealt to the opponent is paid for by `CooldownFrames` of the
      attacker's cooldown, which only animation frames wear down. */
  lemma {:induction false} RunRateLimit(s: Session, events: seq<Event>, arenaWidth: int, arenaHeight: int)
    ensures var r := Run(s, events, arenaWidth, arenaHeight);
      CooldownFrames * (s.p2.health - r.p2.health) + Damage * s.p1.cooldown
        <= Damage * (FrameCount(events) + r.p1.cooldown) &&
      CooldownFrames * (s.p1.health - r.p1.health) + Damage * s.p2.cooldown
        <= Damage * (FrameCount(events) + r.p2.cooldown)
    decreases |events|
  {
    if events != [] {
      StepRateLimit(s, events[0], arenaWidth, arenaHeight);
      RunRateLimit(Step(s, events[0], arenaWidth, arenaHeight), events[1..], arenaWidth, arenaHeight);
    }
  }

  /** From a state whose cooldowns are in range, a fighter lands at most one
      hit per `CooldownFrames` frames, plus one. */
  lemma DamageBound(s: Session, events: seq<Event>, arenaWidth: int, arenaHeight: int)
    requires CooldownsInRange(s)
    ensures var r := Run(s, events, arenaWidth, arenaHeight);
      CooldownFrames * (s.p2.health - r.p2.health) <= Damage * (FrameCount(events) + CooldownFrames) &&
      CooldownFrames * (s.p1.health - r.p1.health) <= Damage * (FrameCount(events) + CooldownFrames)
  {
    RunKeepsInvariants(s, events, arenaWidth, arenaHeight);
    RunRateLimit(s, events, arenaWidth, arenaHeight);
  }

  /** Once the render loop is no longer scheduled, no number of further frames
      changes the match: it lifts `FrameStep`'s single-step rule to runs. */
  lemma {:induction false} EndedMatchIgnoresFrames(s: Session, n: nat, arenaWidth: int, arenaHeight: int)
    requires !s.running
    ensures Run(s, Frames(n), arenaWidth, arenaHeight) == s
  {
    if n > 0 {
      assert Frames(n)[1..] == Frames(n - 1);
      EndedMatchIgnoresFrames(s, n - 1, arenaWidth, arenaHeight);
    }
  }

  /** The input timer is never stopped: after the match has ended, a poll can
      still land P1's attack on a knocked-out P2. */
  lemma InputOutlivesMatch(arenaWidth: int, arenaHeight: int)
    ensures var s := Session(Initial(Left, false).(x := 0), Initial(Right, false).(x := 0, health := 0), false);
      HandleInput(s, {P1Controls.attack}, arenaWidth, arenaHeight).p2.health == -Damage
  {
  }

  /** The alert reads the health after its delay, and the input timer keeps
      running meanwhile: a frame can end the match with P1 the winner, and a
      human P2's attack key in the next poll still makes the alert name P2. */
  lemma LateAlertCanFlipWinner(arenaWidth: int, arenaHeight: int)
    ensures var s := Session(Initial(Left, false).(x := 0, health := 4),
                             Initial(Right, false).(x := 0, health := 0), false);
      Judge(s.p1.health, s.p2.health) == Winner(P1) &&
      Announced(HandleInput(s, {P2Controls.attack}, arenaWidth, arenaHeight)) == P2
  {
  }

  /** An AI fighter on the right facing a passive human on its left, the same
      width, both ready and healthy, with the render loop running. */
  predicate Facing(s: Session) {
    s.running && !s.p1.isAI && s.p2.isAI && s.p2.side == Right &&
    s.p1.width == s.p2.width && s.p1.cooldown == 0 && s.p2.cooldown == 0 &&
    s.p1.health > 0 && s.p2.health > 0
  }

  /** Every event is a frame or a poll with no key held down. */
  predicate NoKeys(events: seq<Event>) {
    forall i :: 0 <= i < |events| ==> events[i] == AnimationFrame || events[i] == InputPoll({})
  }

  predicate NoPolls(events: seq<Event>) {
    forall i :: 0 <= i < |events| ==> events[i] == AnimationFrame
  }

  /** A poll with no key held down only clamps, so it changes nothing while
      both fighters are inside the arena. */
  lemma IdlePollChangesNothing(s: Session, arenaWidth: int, arenaHeight: int)
    requires 0 <= s.p1.x <= arenaWidth - s.p1.width && 0 <= s.p2.x <= arenaWidth - s.p2.width
    ensures HandleInput(s, {}, arenaWidth, arenaHeight) == s
  {
  }

  /** Without keys pressed, the AI walks in by `AIStep` per frame until it
      stands `ChaseDistance` away, and then stays there: at that distance it
      attacks instead of walking, but the attack does not reach, so no damage
      is ever dealt and the cooldown never starts. Idle polls in between change
      nothing as long as both fighters start inside the arena. */
  lemma {:induction false} ApproachStalls(s: Session, events: seq<Event>, arenaWidth: int, arenaHeight: int)
    requires Facing(s) && NoKeys(events)
    requires s.p2.x - s.p1.x >= ChaseDistance && (s.p2.x - s.p1.x - ChaseDistance) % AIStep == 0
    requires NoPolls(events) || (0 <= s.p1.x && s.p2.x + s.p2.width <= arenaWidth)
    ensures var r := Run(s, events, arenaWidth, arenaHeight);
      var gap := s.p2.x - s.p1.x - AIStep * FrameCount(events);
      Facing(r) && r.p1.health == s.p1.health && r.p2.health == s.p2.health &&
      r.p1.x == s.p1.x && r.p2.x - r.p1.x == (if gap > ChaseDistance then gap else ChaseDistance)
    decreases |events|
  {
    if events != [] {
      var s' := Step(s, events[0], arenaWidth, arenaHeight);
      if events[0] == AnimationFrame {
        assert s'.p1.x == s.p1.x && s'.p1.health == s.p1.health && s'.p2.health == s.p2.health;
        if s.p2.x - s.p1.x > ChaseDistance {
          assert s'.p2.x == s.p2.x - AIStep;
        } else {
          assert !InReach(s.p2, s.p1);
          assert s'.p2.x == s.p2.x;
        }
      } else {
        assert !NoPolls(events);
        IdlePollChangesNothing(s, arenaWidth, arenaHeight);
      }
      assert NoKeys(events[1..]) by {
        forall i | 0 <= i < |events| - 1 ensures events[1..][i] == AnimationFrame || events[1..][i] == InputPoll({}) {
          assert events[1..][i] == events[i + 1];
        }
      }
      if NoPolls(events) {
        assert NoPolls(events[1..]) by {
          forall i | 0 <= i < |events| - 1 ensures events[1..][i] == AnimationFrame {
            assert events[1..][i] == events[i + 1];
          }
        }
      }
      ApproachStalls(s', events[1..], arenaWidth, arenaHeight);
    }
  }

  /** The opening of a match against the AI: with P1 idle, P2 walks from 550
      to 270 in 70 frames and then never lands a hit, however long the match
      runs. The input timer may poll in between when the arena is wide enough
      to hold P2's starting position. */
  lemma IdlePlayerIsNeverHit(events: seq<Event>, arenaWidth: int, arenaHeight: int)
    requires NoKeys(events)
    requires NoPolls(events) || RightStartX + FighterWidth <= arenaWidth
    ensures var r := Run(Start(true), events, arenaWidth, arenaHeight);
      var n := FrameCount(events);
      r.running && r.p1.health == StartHealth && r.p2.health == StartHealth &&
      r.p1.x == LeftStartX && r.p2.x == (if n <= 70 then RightStartX - AIStep * n else 270)
  {
    ApproachStalls(Start(true), events, arenaWidth, arenaHeight);
  }

  /** The AI's step direction is fixed by its side, not by where its opponent
      stands: an AI P2 whose opponent has walked more than 120 past it to the
      right keeps stepping left, away from P1, and since frames never clamp x
      it walks out of the arena. */
  lemma AIWalksAwayOncePassed(arenaHeight: int)
    ensures var s := Session(Initial(Left, false).(x := 300), Initial(Right, true).(x := 100), true);
      FrameStep(s, arenaHeight).p2.x == 96 &&
      FrameStep(s.(p2 := s.p2.(x := 0)), arenaHeight).p2.x == -AIStep
  {
  }

  /** P2 updates against the P1 of this frame: two AI fighters 122 apart, P1
      steps in to 118, so P2 attacks (and misses) instead of stepping in too;
      against last frame's P1 it would have stepped to 118. */
  lemma P2SeesP1sMove(arenaHeight: int)
    ensures var s := Session(Initial(Left, true).(x := 0), Initial(Right, true).(x := 122), true);
      FrameStep(s, arenaHeight).p1.x == 4 && FrameStep(s, arenaHeight).p2.x == 122 &&
      Update(s.p2, s.p1, arenaHeight).me.x == 118
  {
  }

  /** With a human P1, the update order is not observable: P2 updating first
      gives the same frame. */
  lemma HumanP1OrderIrrelevant(s: Session, arenaHeight: int)
    requires s.running && !s.p1.isAI
    ensures var b := Update(s.p2, s.p1, arenaHeight);
      var a := Update(b.opp, b.me, arenaHeight);
      FrameStep(s, arenaHeight) == Session(a.me, a.opp, Judge(a.me.health, a.opp.health) == Continue)
  {
  }
}
