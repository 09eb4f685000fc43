# Snow celebration effect — a verified model

`celebration.js` is a browser script. At a fixed target date it overlays the page
with a falling-snow animation. This project models its logic:

- **When the effect starts.** `scheduleEffects` compares the target instant with
  the current one. It starts the effect at once if the target has passed;
  otherwise it arms a timer for the exact difference. The host timer's 32-bit
  delay is modelled too. It makes the script start early when the target lies
  2^31 ms or more ahead (see "## Findings").
- **Starting only once.** `startEffects` is guarded by the `_started` latch, so any
  later call does nothing.
- **Creating a particle.** `createParticle` makes a flake (85 % of draws) or a
  snowball, with per-variant attribute ranges.
- **The particle pool.** It is pre-filled with 80 particles and capped at 250.
  Each animation frame (`updateAndDraw`) does the following:
  - normalises the elapsed time to 60 fps ticks;
  - under the cap, spawns one particle with chance 0.6;
  - walks the pool from the back, moving each particle;
  - splices out each particle that left the screen and, below the cap, pushes a
    replacement.

Modules:

- `Particles` (`particles.dfy`):
  - the particle record and its two variants;
  - `Math.random()` as a stream of draws in [0, 1) read from a position `k`;
  - `rand`, `createParticle` and the motion of one particle in one frame.
- `Snow` (`snow.dfy`):
  - the pool as a class `Pool`, with the pre-fill loop and the frame method over
    its `particles` sequence;
  - the pure functions that specify them (`Spawn`, `Visit`, `Pass`,
    `FrameResult`);
  - the lemmas that characterise the pass and prove the frame invariant.
- `Celebration` (`celebration.dfy`):
  - the scheduling decision;
  - the `_started` latch as a class `Effects`, which owns the pool once it is
    started.

The random stream is consumed in the source's evaluation order:

- In `startEffects`: the 40 stars take four draws each, and the pre-fill starts
  after those 160 draws.
- In `createParticle`: the variant draw, then `size`, then the object literal's
  fields in order.
- In a frame: the spawn draw comes first, and is taken only under the cap,
  because `&&` short-circuits. Replacements created during the pass follow, in
  the order they are pushed.

The strobe timer also draws once every 1.5 s, between frames. A frame therefore
takes as a parameter the stream position it starts from, which is whatever the
strobe draws left.

The attribute ranges are half-open, `[min, max)`, because `rand(min, max)` scales a
draw from [0, 1). The code is followed here. Where a range is empty, as in
`rand(0, canvas.width)` on a zero-width canvas, the value is `min`.

The main results:

- **Pass characterisation** (`Snow.PassShape`). The reverse pass over a pool within
  the cap yields the moved particles that stayed on screen, in their original
  order, followed by one freshly created particle per removed one. So every splice
  is followed by a push, the pool keeps its length, and no replacement is moved in
  the frame it is created.
- **Frame invariant** (`Snow.FrameInvariant`, `Snow.Pool.Frame`). A frame keeps:
  - the pool within 250;
  - every particle within its variant's ranges;
  - no particle off screen afterwards.

  It grows the pool by one exactly when the pool is under the cap and the spawn
  draw hits. Otherwise the length is unchanged.
- **Start** (`Celebration.Effects.StartEffects`, `Celebration.Schedule`).
  - The first start leaves exactly 80 well-formed particles.
  - Later starts change nothing.
  - The effect is due at `max(target, now)` while the target lies less than
    2^31 ms ahead, so it never starts before the target. Beyond that, the
    script as written is due before the target and starts early.
  - With a re-armed timer it is due at `max(target, now)` for every target.

## Model

| member | source | states |
|---|---|---|
| Particles.Rand | celebration.js:193-195 | a draw in [0, 1) scaled onto [min, max) lies in [min, max), and equals min when the range is empty |
| Particles.ScaleBelow | celebration.js:194 | a fraction in [0, 1) of a non-negative width lies in [0, width], strictly below a positive width |
| Particles.WellFormed | celebration.js:203-231 | the attribute ranges of each variant as `createParticle` draws them; a ball has rotation and spin 0 |
| Particles.Entering | celebration.js:206-207 | a particle starts horizontally on the canvas and wholly above its top edge |
| Particles.OffScreen | celebration.js:293 | more than 50 below the bottom edge (counting the size), or more than 100 beyond the left or right edge |
| Particles.CreateParticle | celebration.js:198-233 | flake iff the first draw is below 0.85; consumes 11 draws for a flake and 9 for a ball; every attribute within its variant's range; a ball has rotation and spin 0; x on the canvas; flake y in [-50, -10), ball y in [-100, -20), so the particle starts wholly above the top edge |
| Particles.Move | celebration.js:257-264 | y advances by speed·dt and rotation by rotationSpeed·dt; only x, y and rotation change, so the variant's ranges are kept; a ball's rotation stays 0 |
| Particles.EnteringIsOnScreen | celebration.js:293 | a newly created particle never meets the off-screen test, whatever the canvas height |
| Particles.FallingFlakeStaysLive | celebration.js:257-264 | the flake at (100, -20) with speed 1 is at y = -19 after one tick without sway, and is still on screen |
| Snow.Fresh | celebration.js:237-238 | `count` consecutive `createParticle` calls yield exactly `count` particles, in creation order |
| Snow.Survivors | celebration.js:292-295 | the moved particles a pass keeps: no more than the pool had, and none of them meets the off-screen test |
| Snow.Visit | celebration.js:254-299 | one iteration at index i loses at most one particle, keeps the length when the pool is within the cap (the splice is followed by a push), and leaves the indices below i untouched |
| Snow.Pass | celebration.js:254-300 | the reverse pass over indices n − 1 down to 0 loses at most one particle per visited index, and keeps the length of a pool within the cap |
| Snow.Spawn | celebration.js:250-252 | the pool grows by at most one particle and keeps its old particles as a prefix; it grows exactly when under the cap and the chance draw is below 0.6, and the particle it appends is created from the position after that draw; at the cap nothing is drawn, and a miss consumes only the chance draw |
| Snow.TickAt | celebration.js:244-245 | dt · 16.6667 equals the elapsed time now − lastTime, and the tick carries `now` |
| Snow.FrameResult | celebration.js:243-300 | one `updateAndDraw` on a pool within the cap leaves it within the cap; it grows by one exactly when under the cap and the spawn draw hits, and otherwise keeps its length |
| Snow.VisitLast | celebration.js:254-299 | the first visit of the pass either drops the moved particle and puts its replacement at the end, or puts the moved particle in front of the processed tail |
| Snow.PassSplit | celebration.js:254-300 | the reverse pass over the unvisited prefix leaves the processed tail as it is; it yields the prefix's moved survivors, then the tail, then one fresh particle per removed one |
| Snow.PassShape | celebration.js:254-300 | a pass over a pool within the cap equals its moved survivors followed by one fresh particle per removal, and keeps the pool's length |
| Snow.FreshWellFormed | celebration.js:198-239 | every particle the pre-fill or a replacement creates is within its variant's ranges and enters from above the canvas |
| Snow.SurvivorsWellFormed | celebration.js:257-264 | the particles a pass keeps are still within their variant's ranges |
| Snow.SpawnKeeps | celebration.js:249-252 | the spawn step grows the pool by 0 or 1, by 1 exactly when under the cap and the draw is below 0.6, and keeps every particle well-formed |
| Snow.PassKeeps | celebration.js:254-300 | after the pass over a pool within the cap the length is unchanged, every particle is well-formed and none is off screen |
| Snow.FrameInvariant | celebration.js:243-300 | a frame keeps the pool within 250 and well-formed; it grows by 1 exactly when under the cap and the spawn draw hits, else keeps its length; no particle is off screen afterwards |
| Snow.Pool.constructor | celebration.js:241 | a new pool is empty and its clock starts at the given `performance.now()` value |
| Snow.Pool.PreFill | celebration.js:236-239 | run on the empty pool, the loop leaves exactly the 80 particles of 80 consecutive `createParticle` calls, in order, and returns the next stream position |
| Snow.Pool.Frame | celebration.js:243-303 | a frame records `now` as lastTime and turns the pool into FrameResult of the old pool with dt = (now − lastTime)/16.6667; it keeps the pool valid (at most 250, well-formed), grows it by 0 or 1, and leaves no particle off screen |
| Snow.Pool.SpawnOne | celebration.js:249-252 | the spawn step in place equals Spawn on the old pool |
| Snow.Pool.ReversePass | celebration.js:254-300 | the in-place reverse loop with splice and push equals the pass function on the old pool |
| Celebration.Schedule | celebration.js:18-29 | start at once iff target − now ≤ 0; otherwise the timer delay is positive and now + delay = target |
| Celebration.HostDelay | celebration.js:27 | the wait a host timer gives a requested delay: always in [0, 2^31 − 1], equal to the request within that range, and 0 for requests in [2^31, 2^32) |
| Celebration.StartTime | celebration.js:22-28 | the instant the start is due as written: now for an immediate start; for a timer, never before now and at most 2^31 − 1 ms later, exactly now + delay when the delay is within the timer range |
| Celebration.StartsAtTargetWithinTimerRange | celebration.js:19-28 | when the target lies less than 2^31 ms ahead, the effect is due exactly at the target, or at once when it has passed |
| Celebration.StartsEarlyBeyondTimerRange | celebration.js:19-28 | when the target lies 2^31 ms or more ahead, the effect is due before the target |
| Celebration.EarlyStartExample | celebration.js:19-28 | a page loaded exactly 2^31 ms before the target starts the effect at once |
| Celebration.RearmedStart | celebration.js:18-29 | the intended start, where a timer wait capped at 2^31 − 1 ms is re-armed until the target; never before now |
| Celebration.RearmedStartsAtTarget | celebration.js:18-29 | with re-arming, the effect is due exactly at max(target, now) for every target |
| Celebration.Effects.StartEffects | celebration.js:39-42 | once the latch is set a call changes nothing; the first call sets it and creates a pool holding exactly the 80 particles created after the 160 star draws, well-formed, with its clock at the given time |
| Celebration.Effects.ScheduleEffects | celebration.js:18-29 | the decision is Schedule's; a timer decision changes nothing now; starting at once does what StartEffects does: nothing once started, otherwise a fresh valid pool holding exactly the 80 particles created after the 160 star draws, with its clock at the given time and the stream position after them returned |
| Celebration.StartTwice | celebration.js:39-42 | a second start after the first leaves the first start's 80-particle pool and its clock in place |

## Findings

| source | as written | input that shows it | evidently intended | confidence | as-written member | corrected member |
|---|---|---|---|---|---|---|
| celebration.js:20-27 | `setTimeout(startEffects, delay)` with the full distance to the target; host timers take the delay as a signed 32-bit integer and treat a negative result as 0 | a page loaded 2^31 ms (about 24.8 days) before `targetDate`: the delay wraps to a negative value and the effect starts at once | the effect starts at the target date | not executed; follows from the timer initialisation steps of the HTML Standard | Celebration.StartTime, Celebration.StartsEarlyBeyondTimerRange, Celebration.EarlyStartExample | Celebration.RearmedStart, Celebration.RearmedStartsAtTarget |

## Left out

- The injected CSS and HTML, the spotlight and strobe overlays, the star
  elements and every drawing call (`clearRect`, `save`, `stroke`, `arc`, ...).
  Only their `Math.random()` draws matter to the pool; they are accounted for
  as stream positions.
- `requestAnimationFrame`, `DOMContentLoaded`, `setTimeout` and the `resize`
  listener are host scheduling. Each timestamp, the current time, the target
  instant and the canvas size are parameters of the operation that reads them.
  The canvas can therefore differ from frame to frame, as after a resize.
- The browser guard at the top of the script is left out. In a model there is
  no missing `window`.
- The target date is a parameter of `Celebration.Schedule`. The code builds
  21 November 2024, 17:36; its comment speaks of 27 June 2025. The model takes
  no position on the date.
- `Celebration.StartTime`: a host timer is modelled as firing as soon as its
  wait has elapsed. Hosts may run a timer later, for instance in a throttled
  background tab, so `StartTime` and `Celebration.RearmedStart` are the
  earliest instant the effect can start, not the instant it does start.
- `Celebration.Effects.ScheduleEffects` takes its decision as written. The
  re-arming start of `Celebration.RearmedStart` is stated as a function of
  instants and not as a chain of timers.
- `Snow.Pool.Frame`: `k` is the stream position when the frame starts. The
  strobe's draws since the previous frame, one every 1.5 s, depend on
  wall-clock timing and are not modelled.
- Numbers are mathematical reals, not IEEE doubles. Rounding in `rand`, in the
  movement and in the dt division is not modelled. `Math.PI * 2` is the decimal
  constant `TwoPi`.
- `Particles.Move`: `Math.sin` is a parameter of the tick, so nothing is proved
  about the sway term beyond its place in the formula. As a result the model
  bounds x only through the off-screen test, not through the motion.
- `Particles.CreateParticle`: the 85/15 split between flakes and balls is stated
  per draw (flake iff draw < 0.85). The statistical frequency is not modelled.
- Canvas sizes are non-negative reals (`Pixels`) rather than the integer pixel
  counts the browser supplies.
- `Snow.Pool.Frame`: the source mutates each particle object in place. The
  model replaces the element of the `particles` sequence with the moved value,
  so object identity and aliasing are not modelled. No other reference to a
  particle exists in the script.
- `Snow.Pool.Frame` runs the spawn and the reverse loop as two methods, and the
  loop takes the frame's move, off-screen test and creation as a `Step` value.
  `Snow.Pool.PreFill` takes `createParticle` as a function of the stream
  position. `Celebration.Effects.StartEffects` passes it the real
  `createParticle`, and `Snow.Pool.Frame` passes the real frame operations.
- `Celebration.Effects.StartEffects`: the pool's clock is set when the pool is
  created, at the time the caller supplies. In the source it is read just after
  the pre-fill; the pre-fill does not look at the clock.
