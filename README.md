# Platformer frame core, modelled in Dafny

A model of the gameplay core of the browser platformer in `game.js`: one frame
of player physics and platform collision (`Player.update`), the spike and portal
tests (`Game.checkCollisions`), the update gate in `Game.gameLoop`, the Enter-key
restart with its level advance, `Player.reset`, and the three-level table.

Layout:

- `geometry.dfy` — `Options` (the `undefined` that `find` can yield) and `Geometry` (rectangles, `Math.abs`).
- `levels.dfy` — `Levels`: the level table and `find(p => p.y === 380)`.
- `physics.dfy` — `Physics`: the pure specification of one `update` call (`Step`), built from the
  proposal (keys, jump, gravity), one iteration of the platform walk (`ResolvePlatform`), the
  in-order walk (`ResolveAll`, with `Seen(m, ps, i)` the state platform `i` sees) and the commit
  and clamps; and the lemmas about it.
- `player.dfy` — `PlayerObject.Player`: the class whose fields `x`, `y`, `velocityY`, `grounded`
  the methods update in place; `Update` is proved to leave exactly `Step`'s state.
- `game.dfy` — `GameFlow.Game`: the level index and the two latched flags.

Physics values are exact `real`s. The player's constant attributes (width and height 30,
speed 2, jump force -15, gravity 0.4) are module constants of `Physics`, since the
source never changes them. Key state is a snapshot `Keys(right, left, up)` passed into
each frame; the Enter handler takes the key name of one keydown event.

When no platform lies at y = 380, the source's `find` returns `undefined` and the
next property access throws. `Step` models that as `Crashed`, carrying the fields as
they were at the throw: untouched when the throw is the one in the ArrowRight branch,
fully updated except for the right clamp when it is the one after the walk.
`Player.Update` returns `ok = false` in that case. For the shipped levels this cannot
happen (`Levels.TableGrounds`), and `Game.GameLoop` asserts it.

Behaviour of the code worth noting:

- Jump is level-triggered. Holding Up re-jumps on every frame that starts grounded.
- Won and Lost have no priority between them: `CheckCollisions` can set both in one
  frame. If both are set, Enter treats the frame as a win and advances the level,
  because the handler tests `gameWon` first.
- There is no implicit floor: the ground is an ordinary platform. `x` is clamped to
  `[0, ground.x + ground.width - 30]`, on the right as well as the left.
- The spike test is strict; the portal test is inclusive.

## Model

| member | source | states |
|---|---|---|
| `Levels.FirstGround` | game.js:26 | Yields the index of the first platform whose y is 380, with no earlier such platform. Yields none exactly when no platform has y 380. |
| `Levels.Ground` | game.js:82-83 | The platform `find` returns is in the list and lies at ground height. |
| `Levels.TableGrounds` | game.js:94-153 | There are three levels. Each has its ground as the first platform, at x 0 and at least 800 wide, so the right clamp bound is non-negative. |
| `Physics.MaxX` | game.js:27 | Definition: the ground platform's right end minus the player's width. |
| `Physics.Proposed` | game.js:25-42 | The move-and-gravity phase fails (the first `find` throws) exactly when ArrowRight is held and there is no ground platform. ArrowRight adds the speed only while `x < maxX`, so Right alone at the bound keeps `x`. ArrowLeft always subtracts the speed. The velocity becomes the jump force only when Up is held while grounded, and gravity is added either way. `nextY` is `y` plus the new velocity, and `grounded` is cleared. |
| `Geometry.Abs` | game.js:67-68 | `Math.abs`: non-negative, and either the value or its negation. |
| `Physics.ResolvePlatform` | game.js:46-75 | A platform that enters no branch changes nothing. A landing puts the player on the top edge, at rest and grounded. A head bump puts it at the bottom edge, at rest. `grounded` is set only by a landing. Velocity is either kept or zeroed, and while it is kept only `x` can move. The side push-out moves `x` to `platform.x - width` when the player sticks out on the left, or to `platform.x + platform.width` when it sticks out on the right. Whenever `x` changes, the player no longer overlaps that platform. |
| `Physics.ResolveAll` | game.js:46-76 | The whole `forEach` in list order. Velocity ends either unchanged or zero. While it is unchanged, `y`, `nextY` and `grounded` are unchanged too. `grounded` is never cleared by the walk. |
| `Physics.Commit` | game.js:78-81 | `y` takes `nextY`. `x` becomes exactly 0 when it was negative and is unchanged otherwise. Velocity and `grounded` are kept. |
| `Physics.Step` | game.js:23-85 | A frame finishes exactly when a ground platform exists. A throw with ArrowRight held leaves the state untouched. A throw after the walk leaves the committed state without the right clamp. A finished frame is the committed state with `x` lowered to exactly `maxX` when it exceeds it and unchanged otherwise. So `x <= ground.x + ground.width - width` always, and `x >= 0` whenever that bound is non-negative. |
| `Physics.SettledAfter` | game.js:46-76 | If every platform from `k` on leaves the state at `k` unchanged, the walk ends in that state. |
| `Physics.QuietWalk` | game.js:46-76 | If no platform enters any branch, the walk changes nothing. |
| `Physics.WalkSplit` | game.js:46-76 | The walk over a list equals the walk over its first `k` platforms followed by the walk over the rest. |
| `Physics.AtRestStaysPut` | game.js:47-65 | From zero velocity, no platform can land or bump the player, so `y`, `nextY`, velocity and `grounded` stay and only `x` can move. |
| `Physics.NoVerticalContact` | game.js:46-76 | If no platform lands or bumps the player, the walk keeps `y`, `nextY`, velocity and `grounded`, even when side push-outs occur. |
| `Physics.NoPushOut` | game.js:66-76 | If no platform's side push-out moves the player, the walk leaves `x` as it was. |
| `Physics.AtMostOneVerticalContact` | game.js:47-65 | A frame has at most one landing or head bump: after one, no later platform lands or bumps. |
| `Physics.GroundedIffLanded` | game.js:45-57 | After the walk, `grounded` holds exactly when it held before, or some platform caught a fall on the state it saw (both directions). |
| `Physics.FrameWithoutContact` | game.js:35-45 | With no landing and no head bump (side push-out tests allowed, so a jump from a platform is covered), the frame's velocity is the jump force (only if Up is held while grounded) or the old velocity, plus gravity. `y` is the old `y` plus that velocity, and the player is not grounded. |
| `Physics.FrameGrounded` | game.js:45-78 | A frame ends grounded exactly when some platform caught a fall during it. |
| `Physics.FrameLanding` | game.js:47-57 | If platform `k` catches a fall, the frame ends with `y = platform.y - height`, velocity 0 and `grounded` true, whatever the later platforms are. |
| `Physics.FrameHeadBump` | game.js:59-65 | If platform `k` is hit from below, the frame ends with `y = platform.y + platform.height`, velocity 0 and `grounded` false, whatever the other platforms are. |
| `Physics.FrameX` | game.js:80-84 | Without a side push-out (and with a non-negative bound), the final `x` is the keys' proposal clamped into `[0, maxX]`: 0 below, `maxX` above, unchanged inside. |
| `Physics.StartIsAtRest` | game.js:16-21 | On every level, the reset state with no key held is a fixed point of `update`. |
| `Physics.JumpFromStart` | game.js:35-42 | Pressing Up from the reset state on level 1 gives velocity -14.6, y 335.4 and not grounded after one frame. |
| `PlayerObject.Player.constructor` | game.js:3-14 | Starts at x 50, y 350, velocity 0, grounded. |
| `PlayerObject.Player.Reset` | game.js:16-21 | Restores x 50, y 350, velocity 0, grounded. |
| `PlayerObject.Player.Update` | game.js:23-85 | The new fields are exactly `Step` of the old ones. `ok` holds exactly when a ground platform exists. |
| `PlayerObject.Player.Touch` | game.js:46-75 | One loop iteration updates the fields and `nextY` exactly as `ResolvePlatform` does. |
| `GameFlow.NextLevel` | game.js:255-260 | The level after a win is `(current + 1) mod count`. It stays in range, and it is 0 exactly after the last level. |
| `GameFlow.HitsSpike` | game.js:278-281 | Definition: strict overlap of the player's 30x30 box with a spike. |
| `GameFlow.TouchesSpike` | game.js:277-284 | Definition: the player strictly overlaps some spike of the list. |
| `GameFlow.ReachesPortal` | game.js:288-291 | Definition: inclusive overlap of the player's box with the 30x30 portal box. |
| `GameFlow.StartIsSafe` | game.js:277-293 | On every level, the reset position neither touches a spike nor reaches the portal. |
| `GameFlow.Game.constructor` | game.js:240-271 | After construction and the first frame with no key held: level 0, both flags clear, player at its start state. |
| `GameFlow.Game.CheckCollisions` | game.js:273-294 | `gameLost` becomes its old value or a strict overlap with some spike. `gameWon` becomes its old value or an inclusive overlap with the 30x30 portal. The two are independent and neither is cleared. |
| `GameFlow.Game.GameLoop` | game.js:296-325 | While won or lost, the player and both flags stay unchanged. Otherwise the player takes one `Step` and the flags are set from the collision tests. Another frame is requested exactly when neither flag is set. |
| `GameFlow.Game.OnKeyDown` | game.js:253-266 | Only Enter while won or lost acts. It then resets the player and clears both flags. A win advances the level with wrap-around; a loss keeps the level. Any other key changes nothing. |

## Left out

- Rendering: `Renderer`, `Player.draw`, colours, the end-of-game messages and the camera follow (game.js:305-306). None of these affects gameplay state.
- `InputHandler` and DOM listeners: the held keys are a `Keys` parameter of each frame, and the keydown event is the key's name.
- Scheduling: `requestAnimationFrame`, the page `load` listener and `console.log`. `GameLoop` and `OnKeyDown` instead return whether a new frame is requested.
- Floating point: positions and velocities are exact reals, so the rounding of repeated `+ 0.4` in IEEE doubles is not modelled.
- `Game.constructor`: the canvas lookup and the renderer are not modelled. The first frame runs inside the constructor, as in the source.
- audio/midi-synth.js is not part of this model. It only drives Web Audio playback.
