# Dust: a verified model of the pixiDust particle system

`Dust` is a small particle-effect helper for a 2D rendering engine. A
`Dust` object keeps a registry (`globalParticles`) of particle batches.

- `create` appends one new batch to that registry and fills it with sprites
  that fly out from a point at random or evenly spaced angles. Each particle
  gets a per-frame `updateParticle` step that moves it, shrinks it, turns it
  and fades it, and removes it from its batch and its container once its
  alpha reaches zero.
- `update` is called once per frame of the game loop. It walks the registry
  and every non-empty batch backwards and steps each particle. It drops the
  batches that were already empty when it reached them.
- `emitter` wraps a particle-making function in a play/stop object driven by
  an interval timer.
- `randomFloat` and `randomInt` are the two random helpers all of this uses.

The model is one Dafny project of nine modules:

| module (file) | what it holds |
|---|---|
| `Arith` (arith.dfy) | repeated addition `Times` and sign facts about products of reals |
| `Random` (random.dfy) | `randomFloat` and `randomInt` as functions of an explicit draw in [0, 1) |
| `Seqs` (seqs.dfy) | the array idioms the source uses: `indexOf`, `splice(start, 1)`, `splice(indexOf(x), 1)`, and an order-keeping filter |
| `Motion` (motion.dfy) | one `updateParticle` step as a pure function on a particle's state, its closed form over `k` frames, and when a particle expires |
| `Emission` (emission.dfy) | the parameters of `create` and their defaults, the angle loop (a method), and the initial values `makeParticle` gives a particle |
| `ParticleSystem` (dust.dfy) | the classes `Particle`, `Batch` and `Container`; `updateParticle` as the method `Particle.Step`; the inner, per-batch loop of `update` |
| `Sweeping` (sweep.dfy) | the invariant of the outer, per-registry loop of `update`, over a ghost snapshot taken when the call starts |
| `Registry` (registry.dfy) | the `Dust` class: its constructor, `create` with `makeParticle`, and `update` |
| `Emitting` (emitter.dfy) | the emitter: a class with `play`, `stop` and the timer callback, the pure transitions it follows, and what any run of play/stop/clock events does |

Objects the source shares by reference stay shared here:

- a particle is held by its batch's array and by its container;
- a batch is held by the registry;
- `updateParticle` reaches the batch and the container through the particle's
  own `batch` and `container` fields, as the closure does in the source.

The methods that change state are proved against specification functions:

- `Particle.Step` against `Motion.Advance`;
- `Batch.StepAll` against `Batch.Survivors`;
- `Dust.Update` against `Dust.NonEmpty`;
- the emitter's methods against `PlayStep` and `StopStep`.

Lemmas prove what the source promises about those functions.

`bin/dust.js` is the ES5 output of `src/dust.js` and has the same logic. The
table below cites `src/dust.js`. The same members sit in `bin/dust.js` at these
lines:

- constructor 8-26;
- `randomFloat`/`randomInt` 32-39;
- `create` 45-187: the batch push 74-77, the angle loop 86-105, `makeParticle` 108-145, `updateParticle` 149-177 with its removal at 173-176, `forEach` 181-183;
- `emitter` 193-221: `play` 199-205, `stop` 207-212, `emitParticle` 214-216;
- `update` 227-255: the emptiness test 241, the splice 251.

## Model

| member | source | states |
|---|---|---|
| `Registry.RendererFor` | src/dust.js:6-12 | the renderer is "pixi" exactly when the engine offers a `ParticleContainer`, and "" otherwise |
| `Registry.NewDust` | src/dust.js:2-16 | an undefined engine fails with the constructor's message, and only then; otherwise the new system has an empty, valid registry and the renderer name of its engine |
| `Registry.Dust.constructor` | src/dust.js:2-16 | the registry starts empty and the renderer matches the engine; the renderer is a constant, set only here, so `create` and `update` leave it alone |
| `Random.Spread` | src/dust.js:20 | `Math.random() * w` lies in [0, w) for positive w, in (w, 0] for negative w, and is 0 for w = 0 |
| `Random.RandomFloat` | src/dust.js:19-21 | the result lies in [min, max) when min < max, equals min when the bounds are equal, and lies in (max, min] when they are swapped |
| `Random.RandomInt` | src/dust.js:22-24 | the result is an integer in [min, max] inclusive when min <= max, and in (max, min] when the bounds are swapped |
| `Seqs.IndexOf` | src/dust.js:145 | -1 exactly when the element is absent; otherwise the first position that holds it |
| `Seqs.SpliceOne` | src/dust.js:145 | `splice(start, 1)` removes the element at `start` when 0 <= start < length, the one at length + start for a negative start that stays in range, the first one for a negative start beyond the length, and nothing for a start at or past the end |
| `Seqs.Without` | src/dust.js:145 | `splice(indexOf(x), 1)` always removes exactly one element of a non-empty array and nothing from an empty one |
| `Seqs.WithoutFirst` | src/dust.js:145 | `splice(indexOf(x), 1)` on an array holding `x` once removes that occurrence and keeps every other element in order |
| `Seqs.WithoutAbsentDropsLast` | src/dust.js:213 | `splice(indexOf(x), 1)` with `x` absent removes the LAST element, the hazard the registry's and batches' validity rules out |
| `Seqs.Filter` | src/dust.js:143-146 | the surviving particles are a subsequence no longer than the array, all of them kept ones |
| `Seqs.FilterMembers` | src/dust.js:143-146 | an element survives filtering exactly when it was present and is kept |
| `Seqs.FilterKeepsOrder` | src/dust.js:143-146 | surviving particles keep their relative order |
| `Seqs.FilterDistinct` | src/dust.js:143-146 | removal never duplicates a particle: an array without repetitions stays without them |
| `Motion.Shrink` | src/dust.js:129-134 | a scale component drops by the speed exactly when the result stays above 0 and is left as it is otherwise (a mirrored, negative scale included), so a positive scale stays positive and a non-negative speed never grows it |
| `Motion.Advance` | src/dust.js:119-140 | one step: vx is kept and vy gains gravity; x moves by vx and y by the UPDATED vy; each scale component shrinks as `Shrink` says; rotation rises by its speed and alpha falls by its speed |
| `Motion.Expired` | src/dust.js:143 | the removal test: a particle is kept exactly while its alpha is positive, and an alpha of exactly 0 removes it |
| `Motion.ExpiredAfterStep` | src/dust.js:140-143 | one step removes a particle exactly when its alpha before the step is at most its alpha speed |
| `Motion.AdvanceNClosedForm` | src/dust.js:119-140 | after k steps: vx is unchanged, vy has gained gravity k times, x has moved k·vx, y has moved k·vy plus gravity 1+2+…+k times (y moves by the updated vy), rotation has risen and alpha has fallen k times by their rates |
| `Motion.ScaleStaysPositive` | src/dust.js:128-134 | however many steps pass, positive scale components stay positive, and with a non-negative scale speed they never grow |
| `Motion.Lifetime` | src/dust.js:140-143 | a particle with a positive alpha speed is removed in frame 1 at the earliest |
| `Motion.CeilIsLeast` | src/dust.js:140-143 | the lifetime bound is the least whole frame count at or above alpha / alphaSpeed |
| `Motion.FallsToZero` | src/dust.js:140-143 | with a positive rate, alpha after n decrements is at most 0 exactly when n has reached alpha / rate |
| `Motion.ExpiresAtLifetime` | src/dust.js:139-146 | with a positive alpha speed, a particle is removed in frame j exactly when j has reached its lifetime: never earlier, and always then |
| `Emission.Spacing` | src/dust.js:56 | the spacing times (N − 1) is maxAngle − minAngle whenever N is not 1; for N = 1 (a division by zero in the source, whose result is never used) it is 0 |
| `Emission.EvenAngles` | src/dust.js:68-74 | N evenly spaced angles (none for N <= 0): the first is minAngle and each next one is the previous plus the spacing |
| `Emission.EmissionAngles` | src/dust.js:59-75 | the `angles` array: one angle per draw with `randomSpacing`, each in [minAngle, maxAngle) when minAngle < maxAngle; otherwise N angles starting at minAngle |
| `Emission.EvenFrom` | src/dust.js:68-74 | the i-th evenly spaced angle is the start plus the spacing added i times |
| `Emission.RandomAngles` | src/dust.js:63-66 | one `randomFloat(minAngle, maxAngle)` per draw, in order, each in [minAngle, maxAngle) when minAngle < maxAngle |
| `Emission.ComputeAngles` | src/dust.js:53-75 | the angle loop yields exactly `numberOfParticles` angles (none for a count of 0 or less), the random ones or the evenly spaced ones as `randomSpacing` says, with `angle` set to minAngle on the first pass and advanced only after the push |
| `Emission.RandomAnglesStep` | src/dust.js:63-65 | one more pass with `randomSpacing` appends one more random angle |
| `Emission.EvenStep` | src/dust.js:71-73 | one more pass without `randomSpacing` appends the running angle, and the running angle then stands at the next evenly spaced value |
| `Emission.EvenAnglesSpan` | src/dust.js:56 | with even spacing and N >= 2, the angles form the arithmetic sequence minAngle + i·(maxAngle − minAngle)/(N − 1), from minAngle to maxAngle inclusive |
| `Emission.SingleEvenAngle` | src/dust.js:71-73 | with even spacing and N = 1, the only angle is minAngle whatever maxAngle is, because the spacing is added after the push |
| `Emission.Count` | src/dust.js:59 | the angle loop runs not at all for a count of 0 or less and exactly `numberOfParticles` times otherwise |
| `Emission.DefaultEmission` | src/dust.js:27-40 | with the default parameters (`DEFAULTS`) the count of 20 makes the angle loop run 20 times with `randomSpacing` on, so `create` makes 20 particles at random angles in [0, 6.28), each of a size in [4, 16] and with alpha speed exactly 0.02 |
| `Emission.Spawn` | src/dust.js:84-108 | a new particle starts at (x, y) with the sprite's scale after sizing, and the sprite's rotation and alpha; its size is in [minSize, maxSize]; its frame is in [0, totalFrames − 1] for an animated sprite and is the sprite's own frame otherwise; each rate is within its range; its velocity is speed·(cos angle, sin angle) |
| `Emission.SingleParticleAtZero` | src/dust.js:56-108 | one evenly spaced particle at angle 0 moves along the x axis at a speed in [minSpeed, maxSpeed) |
| `ParticleSystem.Container.constructor` | src/dust.js:31 | a new display container has no children; `addChild` and `removeChild` (src/dust.js:115, 144) are modelled as adding a particle to and removing it from `children` in `MakeParticle` and `Particle.Step` |
| `ParticleSystem.MadeStart` | src/dust.js:84-103 | every particle `makeParticle` sets up starts at (x, y), is square with a size in [minSize, maxSize], shows a frame in [0, totalFrames − 1] when animated, and has its alpha and scale speeds in range |
| `ParticleSystem.Particle.constructor` | src/dust.js:81-108 | the particle takes the initial state, rates, size and frame computed for it, and captures gravity, its batch and its container |
| `ParticleSystem.Particle.Step` | src/dust.js:119-146 | the new state is exactly one `Motion.Advance` of the old one; when alpha has fallen to 0 or below, the particle leaves its container and is spliced out of its batch, and otherwise both stay as they were |
| `ParticleSystem.Batch.constructor` | src/dust.js:44 | a new batch is empty |
| `ParticleSystem.States` | src/dust.js:204-207 | the recorded states of a batch's particles, position by position |
| `ParticleSystem.Batch.StepAt` | src/dust.js:204-207 | one pass of the inner loop: the particle at j steps once; if it expires it leaves its container and the array, and the positions before j are untouched, so the backwards walk can go on |
| `ParticleSystem.Batch.Walk` | src/dust.js:204-207 | the backwards loop over a batch visits every position from the last to the first |
| `ParticleSystem.Batch.StepAll` | src/dust.js:203-207 | every particle present at the start steps exactly once despite removing itself mid-loop; the array ends as the survivors in their order; each container loses exactly its expired particles; the batch stays without repetitions |
| `ParticleSystem.WalkStart` | src/dust.js:204 | the backwards walk starts with nothing visited |
| `ParticleSystem.WalkStep` | src/dust.js:205-206 | each visit moves the walk one position down, with the visited particle stepped and, if expired, removed |
| `ParticleSystem.WalkEnd` | src/dust.js:204-207 | a finished walk leaves the survivors in order, every particle stepped and each container without its expired particles |
| `Registry.Dust.MakeParticle` | src/dust.js:78-115 | a fresh particle set up from its sprite and draws goes to the end of the batch and into the container, and the earlier particles keep their states |
| `Registry.Dust.Fill` | src/dust.js:151 | one particle per angle, in order, each fresh and set up from its own sprite, angle and draws; the container gains exactly the batch's particles |
| `Registry.Dust.Create` | src/dust.js:44-154 | exactly one fresh batch joins the end of the registry; earlier batches are unchanged; it holds exactly `numberOfParticles` particles (none for a count of 0 or less), the i-th made at the i-th emission angle; all of them are added to the container; the registry stays valid |
| `Registry.Dust.Update` | src/dust.js:189-217 | the registry keeps exactly the batches that were non-empty when the call started, in order; every particle present at the start steps exactly once; each batch is left with its survivors in order; each container loses exactly its expired particles; the registry stays valid |
| `Registry.NonEmptyKeeps` | src/dust.js:203-214 | a batch is kept exactly when it is registered and non-empty at the start: an empty registry stays empty, a batch empty at the start is dropped, and a batch emptied by its own particles during the call is still there afterwards, to be dropped by the next call |
| `Registry.Dust.Sweep` | src/dust.js:193-216 | the guarded outer loop leaves the registry filtered to its non-empty batches, with every batch, particle and container as the start-of-call snapshot predicts |
| `Registry.Dust.SweepAll` | src/dust.js:196-215 | the backwards loop over the registry visits every position from the last to the first |
| `Registry.Dust.SweepAt` | src/dust.js:199-214 | one pass of the outer loop: the batch at i is stepped if non-empty and spliced out otherwise, and the positions below i are untouched |
| `Registry.Dust.VisitAt` | src/dust.js:203-208 | a non-empty batch runs its inner loop and the registry stays as it is |
| `Registry.Visit` | src/dust.js:204-207 | the inner loop of a batch gives the survivors, next states and container children the snapshot recorded |
| `Registry.Dust.SkipAt` | src/dust.js:212-214 | an empty batch is spliced out of the registry |
| `Registry.Dust.Drop` | src/dust.js:213 | `globalParticles.splice(globalParticles.indexOf(b), 1)` takes exactly `b` out of the registry |
| `Registry.UpdateStart` | src/dust.js:189-196 | the snapshot taken at the start of `update` describes every batch, particle and container reachable from the registry |
| `Registry.UpdateEnd` | src/dust.js:196-216 | a sweep that has visited every position leaves what `update` promises |
| `Sweeping.RegistryStep` | src/dust.js:210-214 | each pass of the outer loop keeps the registry as "unvisited prefix, then the visited batches that were non-empty" |
| `Emitting.PlayStep` | src/dust.js:164-170 | `play` when not playing calls the particle function once, starts one timer and sets `playing`; when already playing it changes nothing |
| `Emitting.StopStep` | src/dust.js:172-177 | `stop` always leaves the emitter not playing and never calls the particle function; when playing it clears the timer, and otherwise it changes nothing |
| `Emitting.Tick` | src/dust.js:167 | each period of the clock makes every live timer call the particle function once |
| `Emitting.Apply` | src/dust.js:164-181 | after one event the emitter is playing exactly when the event was `play`, or a clock period while it was playing; no event takes back a call already made |
| `Emitting.Run` | src/dust.js:164-181 | over any sequence of events the call count never decreases, and a stopped emitter with no live timer makes no call and stays stopped until `play` is called |
| `Emitting.ApplyKeepsOneTimer` | src/dust.js:164-177 | each play, stop or clock period keeps the rule "one live timer while playing, none otherwise" |
| `Emitting.RunKeepsOneTimer` | src/dust.js:164-177 | whatever sequence of play, stop and clock events happens, there is never more than one live timer, and one exactly while playing |
| `Emitting.PlayStopIdempotent` | src/dust.js:164-177 | calling `play` twice in a row is the same as calling it once; so is `stop` |
| `Emitting.SilentAfterStop` | src/dust.js:172-181 | after `stop`, no call of the particle function happens, however many periods pass, until `play` is called again |
| `Emitting.OneCallPerPeriod` | src/dust.js:167-181 | while playing, n periods of the clock make exactly n calls of the particle function |
| `Emitting.Emitter.constructor` | src/dust.js:159-162 | a new emitter is not playing, has no timer and has made no call |
| `Emitting.Emitter.Play` | src/dust.js:164-170 | the emitter's state moves as `PlayStep` says |
| `Emitting.Emitter.Stop` | src/dust.js:172-177 | the emitter's state moves as `StopStep` says |
| `Emitting.Emitter.EmitParticle` | src/dust.js:179-181 | the timer callback makes one more call of the particle function and changes nothing else |

## Left out

- Rendering engine: sprites, `anchor.set`, `gotoAndStop` and the real `addChild`/`removeChild` are not modelled (src/dust.js:85, 94, 115, 144).
  - The sprite factory's results are passed to `Create` as a sequence of `Sprite` records.
  - A container is a set of particle references, so the display order of its children is not modelled.
  - `width` and `height` are kept as the size they are set to; how the engine rescales the sprite from them is not modelled. The `Sprite` record's `scaleX` and `scaleY` stand for the scale after that rescaling, so "starts with the sprite's scale" means the scale once the size is set.
- `Math.random`: every draw is an explicit parameter in [0, 1).
- `Math.cos` and `Math.sin` are passed in as functions. The only facts about them the model uses are cos(0) = 1 and sin(0) = 0, which `SingleParticleAtZero` takes as preconditions.
- IEEE floating point: positions, velocities, scale, rotation, alpha and angles are `real`.
  - The even angles are exact, so the rounding drift of repeated `angle += spacing` is not captured.
  - `NaN` and infinities are not modelled.
- Division by zero for one evenly spaced particle (src/dust.js:56): `(maxAngle - minAngle) / 0` is never used, so the spacing is taken as 0.
- Timers: `setInterval` and `clearInterval` belong to the host.
  - The emitter keeps its `playing` flag, a count of live timers and a count of calls of the particle function.
  - A clock period is the `Tick` event.
  - What the particle function does is not modelled.
  - The `interval` is recorded but not used.
- Default arguments and the global `PIXI` default (src/dust.js:2, 28-40) are not modelled. `DEFAULTS` records the numeric defaults only.
  - The default sprite factory (src/dust.js:30) returns `undefined`.
  - The default container (src/dust.js:31) is a factory function, but src/dust.js:115 calls `addChild` on the argument itself, so it would fail at run time. The model follows line 115: the container is an object.
  - Callers therefore supply a container object and the sprites.
- `this.Container`, the engine's container type the constructor keeps (src/dust.js:10), is not modelled.
- Each sprite is assumed to be a distinct new object: `Create` makes a fresh `Particle` per angle. A factory that returned the same sprite twice is not modelled.
- `numberOfParticles`, `minSize` and `maxSize` are integers in the model. JavaScript also accepts fractional values: a count of 2.5 runs the loop of src/dust.js:59 three times, and a fractional size range shifts the result of `randomInt`. These cases are not modelled.
- `new Dust(null)` throws a `TypeError` when it reads `ParticleContainer` of `null` (src/dust.js:9). The model's engine is either absent (`None`, the `undefined` case of src/dust.js:3) or a real engine, so this case is not modelled.
- The Babel helpers `_createClass` and `_classCallCheck` (bin/dust.js:3-5) are class plumbing with no behaviour of their own.
- Interleaving `update` with `create`, or with a particle's step called from outside `update`, is not modelled. The source is single-threaded, and `update` is the only caller of the step.
