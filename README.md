# LeGame fighters, modelled in Dafny

LeGame is a two-fighter browser game. Each fighter has a position, a vertical
velocity, health and an attack cooldown. Every animation frame, each fighter
falls under gravity until it lands on the floor. A ready fighter run by the AI
(cooldown 0) walks in its side's direction (towards the side its opponent
started on) while the two are more than 120 apart, and otherwise attempts an
attack; while cooling down it does neither. It never turns round: an opponent that has walked past it is left behind
(`MatchRuns.AIWalksAwayOncePassed`). An attack is gated by the cooldown
and takes 12 health from an opponent within reach. A separate input timer
reads the keyboard: it moves the human fighters, lets them jump from the
floor and attack, and keeps both inside the arena. The match ends at the
first frame that leaves either fighter with health of zero or less. At that
frame P2 is the winner whenever P1 is down, including a double knock-out; the
alert that announces the winner reads the health again 100 ms later.

The project has four modules:

- `FighterRules` (`fighter_rules.dfy`) holds the per-fighter rules as pure
  functions on a value snapshot `FighterState`: `Fall` (gravity and the floor
  clamp), `Attack` and `Update`.
- `MatchRules` (`match_rules.dfy`) holds the frame step, the win rule
  (`Judge`) and the input poll (`HandleInput`, with `Steer` and `ClampX`).
  In `FrameStep` P1 updates before P2, and P2 sees P1's new state. With the
  human P1 that every match creates, the order cannot be observed
  (`MatchRuns.HumanP1OrderIrrelevant`); `MatchRuns.P2SeesP1sMove` shows it
  only with an AI P1, which the program never creates.
- `MatchRuns` (`match_runs.dfy`) treats a match as any interleaving of
  animation frames and input polls, because the render loop and the input
  timer are scheduled independently. It proves the match invariants, a rate
  limit on damage and the AI's opening behaviour.
- `Game` (`game.dfy`) holds the objects as the program keeps them. Class
  `Fighter` has fields that `Update`, `Attack`, `Steer` and `KeepInside`
  change in place. Class `Game` holds the global `p1`/`p2` references and the
  "frame scheduled" flag, with `InitGame`, `Animate` and `HandleInput`. Each
  method is proved to have exactly the effect of the matching pure rule.

The arena's width and height are parameters. The keyboard is a set of
pressed, lower-cased key names. The x coordinate is an integer: it starts at
150 or 550, moves in steps of 4 or 5, and is clamped against the integer
canvas width. The y coordinate and the velocity are `real`. The centre
distance uses real division, as the program does.

One consequence of the program's constants is proved: the AI stops walking at
an x distance of 120, but its attack reaches only when the centres are closer
than 90. So from the opening positions, against a P1 who presses no key, the
AI walks from 550 to 270 in 70 frames and then never lands a hit
(`MatchRuns.IdlePlayerIsNeverHit`). Input polls with no key held down may
fall anywhere in between, as long as the arena is wide enough to hold P2's
starting position.

## Model

| member | source | states |
|---|---|---|
| `FighterRules.Fall` | game.js:41-46 | After the gravity step the fighter is on or above the floor line. The clamp fires exactly when the fighter would sink below the floor; it then stands on the floor with velocity 0. Otherwise it moved by its velocity and the velocity grew by exactly 0.8. Nothing else changes. |
| `FighterRules.Attack` | game.js:61-68 | While the cooldown is positive nothing changes. The opponent loses health exactly when the attacker is ready and the centre distance is below 90. It then loses exactly 12 and the attacker's cooldown becomes 30. Otherwise nothing changes. Only the attacker's cooldown and the opponent's health can change. A cooldown in [0, 30] stays in [0, 30]. |
| `FighterRules.Update` | game.js:40-59 | The fighter ends on or above the floor, with y and velocity as the gravity step gives. Its own health and fixed fields are unchanged, and only the opponent's health can change. A positive cooldown drops by exactly 1, with no move and no attack. A hit leaves the cooldown at 29; otherwise it counts down by 1 or stays at or below 0. A cooldown in [0, 30] ends in [0, 30). A human fighter never moves sideways and never touches the opponent, and a fighter whose cooldown is not 0 never moves sideways. A ready AI fighter farther than 120 steps 4 towards its side's direction and leaves the opponent unchanged. A ready AI fighter within 120 stays put and hits exactly when the opponent is in reach. Every hit costs 12 health and needs a ready attacker. |
| `MatchRules.Judge` | game.js:95-97 | The match goes on exactly when both healths are positive. P2 wins exactly when P1's health is at most 0, including a double knock-out. P1 wins exactly when P1 is up and P2 is down. |
| `MatchRules.FrameStep` | game.js:81-103 | A frame that is no longer scheduled changes nothing. After a scheduled frame, the loop stays scheduled exactly when both healths are positive. Both fighters are on or above the floor, no health rises, and the fixed fields are unchanged. |
| `MatchRules.Steer` | game.js:116-118 | The net sideways move is +5 for the right key minus 5 for the left key. The velocity becomes -18 when the jump key is down and the fighter is grounded, and changes in no other case. Only x and the velocity change. |
| `MatchRules.ClampX` | game.js:130-131 | The new x lies in [0, arenaWidth - width]. An x already in range is unchanged, a negative x becomes 0, an x beyond the range becomes arenaWidth - width, and in an arena narrower than the fighter x becomes 0. Only x changes. |
| `MatchRules.HandleInput` | game.js:112-132 | While P1 is down nothing changes. Otherwise both x values end inside the arena. The y values and the scheduled flag never change. Each velocity becomes -18 exactly when that fighter's jump key is down and it is grounded; P2 jumps only when it is human. An AI P2's cooldown never changes in a poll and it never hits P1. Health drops only by 12, through the attack key of a ready opponent. A fighter's cooldown restarts at 30 exactly when its attack lands. |
| `MatchRules.HandleInputKeys` | game.js:112-132 | x after a poll is the clamp of where the walk keys took the fighter (P1 by a/d, a human P2 by the arrow keys); an x that stays in range is exactly the ±5 walk, and an AI P2 is only clamped. P1's attack key takes 12 from P2 exactly when P1 is up, ready and, after its own step, in reach. A human P2's Enter takes 12 from P1 exactly when P2 is ready and, after its own step, in reach of P1 as P1 stands after its keys. |
| `MatchRuns.RunKeepsInvariants` | game.js:40-132 | Over any interleaving of frames and polls, the fixed fields never change and health never rises. Cooldowns in [0, 30] stay in range. Fighters on or above the floor stay there. A match that has ended is never restarted. |
| `MatchRuns.StepRateLimit` | game.js:58-68 | In one frame or poll, every 12 damage a fighter deals is paid for by 30 frames of its cooldown. |
| `MatchRuns.RunRateLimit` | game.js:58-68 | Over any interleaving: 30 × damage dealt + 12 × starting cooldown ≤ 12 × (frames + final cooldown), for each fighter. Only animation frames wear the cooldown down. |
| `MatchRuns.DamageBound` | game.js:58-68 | From cooldowns in range, a fighter lands at most one hit per 30 frames, plus one, however the input polls fall. |
| `MatchRuns.EndedMatchIgnoresFrames` | game.js:95-102 | Lifts `FrameStep`'s rule for an unscheduled frame to runs: once the loop has stopped, any number of frames leaves the match unchanged. |
| `MatchRuns.LateAlertCanFlipWinner` | game.js:95-97 | The frame that ends the match can judge P1 the winner while the alert, read after a poll in which a knocked-out human P2 presses Enter, names P2. |
| `MatchRuns.InputOutlivesMatch` | game.js:112-119 | The input timer keeps acting after the match has ended. A poll can still land P1's attack on a knocked-out P2. |
| `MatchRuns.IdlePollChangesNothing` | game.js:112-132 | A poll with no key held down leaves a session whose fighters are inside the arena unchanged. |
| `MatchRuns.ApproachStalls` | game.js:49-68 | A ready AI P2 facing a human P1 of the same width, with no key pressed, closes in by 4 per frame until the gap is 120. From then on it stays 120 away. No health changes and both cooldowns stay 0. Key-less polls may come in between when both start inside the arena. |
| `MatchRuns.IdlePlayerIsNeverHit` | game.js:21-34 | From the opening positions, over any mix of frames and key-less polls (polls only in an arena at least 630 wide), P2 stands at 550 - 4n after n frames for the first 70 frames and at 270 afterwards. Both keep 100 health and the match keeps running. |
| `MatchRuns.AIWalksAwayOncePassed` | game.js:48-51 | An AI P2 with P1 more than 120 to its right steps left, from 100 to 96; from x 0 it steps to -4, because a frame never clamps x. |
| `MatchRuns.P2SeesP1sMove` | game.js:87-88 | P2 updates against this frame's P1. Two AI fighters 122 apart: P1 steps to 4, so P2 attacks in place at 122. Against the earlier P1 it would have stepped to 118. |
| `MatchRuns.HumanP1OrderIrrelevant` | game.js:87-88 | With a human P1, updating P2 first gives the same frame. |
| `Game.Fighter.constructor` | game.js:21-34 | The new fighter is at its side's start x (150 or 550), has y 220, velocity 0, health 100 and cooldown 0, and is 80 × 160. |
| `Game.Fighter.Attack` | game.js:61-68 | In place: the attacker's cooldown and the opponent's health become what `FighterRules.Attack` gives. |
| `Game.Fighter.Update` | game.js:40-59 | In place: the fighter and its opponent become what `FighterRules.Update` gives. |
| `Game.Fighter.Steer` | game.js:116-118 | In place: x and the velocity become what `MatchRules.Steer` gives. |
| `Game.Fighter.KeepInside` | game.js:130-131 | In place: x becomes what `MatchRules.ClampX` gives. |
| `Game.Game.constructor` | game.js:72 | No fighters exist before the first match, and no frame is scheduled. |
| `Game.Game.InitGame` | game.js:74-105 | The two fighters are fresh and distinct. P2 is the AI when no sprite was uploaded. The first frame has run, and the state is `FrameStep` of the opening state. |
| `Game.Game.Animate` | game.js:81-103 | The fighters become `MatchRules.FrameStep` of the old state. The verdict is `Judge` of the new healths, and the loop stays scheduled exactly when the verdict is to continue. |
| `Game.Game.HandleInput` | game.js:112-132 | Before the first match nothing happens. Otherwise the fighters become `MatchRules.HandleInput` of the old state. |

## Left out

- Image loading (`loadImage`, game.js:2-17): canvas drawing, image decoding, object URLs and a promise. This is browser API with floating-point aspect scaling.
- Drawing (`draw`, the floor strip, the sprite images) and the health read-outs, which show `max(health, 0)`. These are rendering only.
- Scheduling: `requestAnimationFrame`, `cancelAnimationFrame`, `setTimeout` with `alert`, and `setInterval`. The event loop's interleaving of frames and input polls is any sequence of `MatchRuns.Event`s. A new interval is added on every start click; this is covered because polls may occur any number of times.
- The keydown/keyup listeners and the start button wiring, with the setup and game panels. The pressed keys are a parameter.
- Exact IEEE rounding of the gravity step and of the jump velocity. `y` and `velocity` are `real`.
- Sprite URLs and the built-in base64 image. The fighter's name is kept but is display only.
- `Game.Fighter.Attack`, `Game.Fighter.Update`: require the opponent to be a different object. The program only ever passes the other fighter.
- `MatchRules.Judge` and `Game.Game.Animate` give the verdict at the frame that ends the match. The program's alert reads the health 100 ms later, and polls in between can change it, so the announced winner can differ (`MatchRuns.LateAlertCanFlipWinner`). The delay itself is not modelled.
- `Game.Game.Animate`: requires a scheduled frame. The program only runs `animate` from `initGame` and from its own rescheduling while the match is on. The pure `MatchRules.FrameStep` treats an unscheduled frame as a no-op.
- `Game.Game.HandleInput`: requires `Valid()`, that is, `p1` and `p2` are set together and are distinct, as `initGame` does. The `if (p2)` guards are modelled, but under that invariant they always pass.
