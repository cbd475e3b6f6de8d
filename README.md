# Skeet: bullets, birds and the mediator, modelled in Dafny

Skeet is a small shooting game. Birds fly in from the left edge and the
player fires bullets at them from the top right corner. This project models
its simulation logic with the drawing removed:

- **Bullets** (`bullet.h`, `Lab08-SeparationOfConcerns/Skeet/bullet.cpp`):
  Pellet, Bomb, Shrapnel and Missile with their constructor constants; one
  tick of motion with the bounds kill and the countdowns of bombs and
  shrapnel; a bomb's death, which throws 20 shrapnel; missile steering; and
  the separation-of-concerns copy (`BulletStorage`, `BulletLogic` and the
  per-kind logic classes).
- **Decorator birds** (`Decorator/bird.h`, `bird.cpp`, `ApplyMovement.h`):
  a bird owns an ordered list of movement rules (Inertia, Drag,
  AntiGravity, Gravity, Turn). `advance` applies them in order, then kills
  an out-of-bounds bird and negates its points. Each kind's constructor
  fixes its start ranges and its rule recipe.
- **Strategy birds** (`Strategy/chaos.cpp`, `Strategy/buoyancy.cpp`,
  `gravity.cpp`, and the two `inertia.cpp`): the same rules, hard-coded in
  one `advance` per kind.
- **Mediator** (`Lab06-MessagePassing/Mediator/Skeet`): the mediator fans
  a `{type, value}` message out to its colleagues in list order. The bird
  colleague sends `BIRD_DIED` with minus or plus the bird's points. The
  bullet colleague sends `BULLET_FIRED` with the bullet's value. The
  hit-ratio colleague passes the value of every `BIRD_DIED` to its status.

How the model is laid out:

- One module per file: `Geometry`, `Random`, `Movement`, `Decorator`,
  `Strategy`, `Bullets`, `SeparatedBullets` and `Mediator`.
- Objects whose fields the source updates in place are classes with
  `modifies` frames: the birds, the bullets, `BulletLogic`, the mediator,
  its colleagues, and `Rng` (the state of `rand()`).
- Each in-place operation is proved against a pure function of the old
  state: `Affect` and `Run` for the movement rules, `Tick` and `Ticks` for
  the bullets, `Volley` and `Burst` for a bomb's death, `Adjustments` for
  the mediator.
- The source's promises are proved as lemmas about those functions.

Positions and velocities are pairs of `real`.

`cos`, `sin`, `Velocity::turn` and `Velocity::set` are function values
passed in through `Geometry.Trig`. Only the two lemmas named under
"## Left out" take a fact about their values as a hypothesis.

`rand()` is an injected stream `Draws`: any function from the call number
to a value in [0, RAND_MAX], together with a counter of the calls made so
far. Every operation states which draws it uses, in statement order.

An `assert` in a constructor becomes a `requires` where the caller chooses
the angle. In `BombLogic::death` the angles come from `rand()`, so there the
`BulletStorage` constructor is modelled as `NewStorage`. It returns `None`
where the assertion would abort the program.

## Model

| member | source | states |
|---|---|---|
| Geometry.OutOfBounds | bullet.h:53-57 | out of bounds exactly when the point lies outside [-r, W + r) x [-r, H + r): strict at the lower edges, `>=` at the upper ones; the same test as `BulletLogic::isOutOfBounds` and `Bird::isOutOfBounds` |
| Random.IntFromDraw | Lab08-SeparationOfConcerns/Skeet/bullet.cpp:248-254 | the integer helper returns a value in [min, max - 1]; a draw below max - min maps to min + draw |
| Random.RealFromDraw | Lab08-SeparationOfConcerns/Skeet/bullet.cpp:255-261 | the real helper returns a value in [min, max]; a draw of 0 gives min and a draw of RAND_MAX gives max |
| Random.Rng.RandomInt | SkeetAlgorithmAbstraction/Decorator/bird.cpp:47-53 | randomInt uses exactly one rand() call and returns IntFromDraw of it, which lies in [min, max - 1] |
| Random.Rng.RandomReal | SkeetAlgorithmAbstraction/Decorator/bird.cpp:54-60 | randomFloat uses exactly one rand() call and returns RealFromDraw of it, which lies in [min, max] |
| Movement.Kick | SkeetAlgorithmAbstraction/Decorator/ApplyMovement.h:68-75 | the turn kicks the velocity only when randomInt(0, 15) is 0, using 3 draws; otherwise 1 draw and v unchanged; each component moves by at most 1.5 |
| Movement.KickTurns | SkeetAlgorithmAbstraction/Decorator/ApplyMovement.h:70-74 | when the turn fires, dy is kicked by the second draw and then dx by the third |
| Movement.Affect | SkeetAlgorithmAbstraction/Decorator/ApplyMovement.h:29-76 | Inertia: pt + v, v kept. Drag: v scaled by 0.990. AntiGravity: dy + 0.05. Gravity: dy - 0.07. Turn: Kick. Only Inertia moves pt; only Turn draws |
| Movement.Run | SkeetAlgorithmAbstraction/Decorator/bird.h:71-74 | the rules in order never give back draws; without Turn no draw is used; without Inertia pt is unchanged |
| Movement.RunAppend | SkeetAlgorithmAbstraction/Decorator/bird.h:71-74 | a rule added last runs on what the earlier rules produced |
| Movement.RunPrepend | SkeetAlgorithmAbstraction/Decorator/bird.h:71-74 | the first rule runs first; the rest see its result |
| Movement.InertiaDragOrder | SkeetAlgorithmAbstraction/Decorator/ApplyMovement.h:32-44 | [Inertia, Drag] moves pt by v and [Drag, Inertia] by 0.99 v; for a moving bird the two orders differ |
| Movement.AffectMovement | SkeetAlgorithmAbstraction/Decorator/ApplyMovement.h:25-75 | the in-place update of pt and v, and the draws it uses, equal Affect of the rule |
| Decorator.MiddleSpawn | SkeetAlgorithmAbstraction/Decorator/bird.cpp:74-79 | the table is the Standard and Crazy start ranges of these lines (y in [0.25H, 0.75H], dx in [speed - 0.5, speed + 0.5], dy in [-speed/5, speed/5]); the contract proves they satisfy the randomFloat asserts |
| Decorator.FloaterSpawn | SkeetAlgorithmAbstraction/Decorator/bird.cpp:98-103 | the table is the Floater start ranges of these lines (y in [0.01H, 0.5H], dy in [0, speed/3]); the contract proves they satisfy the randomFloat asserts |
| Decorator.SinkerSpawn | SkeetAlgorithmAbstraction/Decorator/bird.cpp:123-128 | the table is the Sinker start ranges of these lines (y in [0.5H, 0.95H], dy in [-speed/3, 0]); the contract proves they satisfy the randomFloat asserts |
| Decorator.Launch | SkeetAlgorithmAbstraction/Decorator/bird.cpp:74-79 | the start is x = 0 with y, dx and dy inside the kind's ranges, drawn in that order |
| Decorator.Place | SkeetAlgorithmAbstraction/Decorator/bird.cpp:74-79 | the three constructor draws yield Launch and use three rand() calls |
| Decorator.Bird.constructor | SkeetAlgorithmAbstraction/Decorator/bird.h:31 | a new bird is alive, worth 0 points, of radius 1, with no movements |
| Decorator.Bird.Standard | SkeetAlgorithmAbstraction/Decorator/bird.cpp:71-90 | defaults (25, 5, 10); alive; points and radius from the arguments; start from MiddleSpawn; movements exactly [Inertia, Drag] |
| Decorator.Bird.Floater | SkeetAlgorithmAbstraction/Decorator/bird.cpp:95-115 | defaults (30, 5, 15); start from FloaterSpawn; movements exactly [Inertia, Drag, AntiGravity] |
| Decorator.Bird.Sinker | SkeetAlgorithmAbstraction/Decorator/bird.cpp:120-139 | defaults (30, 4.5, 20); start from SinkerSpawn; movements exactly [Inertia, Gravity] |
| Decorator.Bird.Crazy | SkeetAlgorithmAbstraction/Decorator/bird.cpp:144-164 | defaults (30, 4.5, 30); the Standard ranges; movements exactly [Inertia, Drag, Turn] |
| Decorator.Bird.Kill | SkeetAlgorithmAbstraction/Decorator/bird.h:43 | the bird is dead; nothing else changes |
| Decorator.Bird.AddMovement | SkeetAlgorithmAbstraction/Decorator/bird.h:46 | the rule is appended at the end, so registration order is kept |
| Decorator.Bird.ClearMovements | SkeetAlgorithmAbstraction/Decorator/bird.h:47-52 | the movement list is empty |
| Decorator.Bird.ApplyMovements | SkeetAlgorithmAbstraction/Decorator/bird.h:71-74 | every movement runs once in list order, each on the previous one's (pt, v): the result is Run of the list |
| Decorator.Bird.IsOutOfBounds | SkeetAlgorithmAbstraction/Decorator/bird.h:60-64 | out of bounds iff the bird's point lies outside the field widened by its radius |
| Decorator.Bird.Advance | SkeetAlgorithmAbstraction/Decorator/bird.h:68-82 | Run of the movements, then dead iff it was dead or is out of bounds, points negated iff out of bounds; no movements leave pt and v unchanged; a dead bird is not skipped |
| Decorator.StandardTick | SkeetAlgorithmAbstraction/Decorator/bird.cpp:88-89 | a Standard bird moves by v, then v loses 1% |
| Decorator.FloaterTick | SkeetAlgorithmAbstraction/Decorator/bird.cpp:112-114 | a Floater moves by v; then v = (0.99 dx, 0.99 dy + 0.05) |
| Decorator.SinkerTick | SkeetAlgorithmAbstraction/Decorator/bird.cpp:137-138 | a Sinker moves by v, then dy falls by 0.07; no drag |
| Decorator.CrazyTick | SkeetAlgorithmAbstraction/Decorator/bird.cpp:161-163 | a Crazy bird moves by v; the dragged v is kept unless the turn fires, and otherwise moves by at most 1.5 per axis |
| Strategy.CheckBounds | SkeetAlgorithmAbstraction/Strategy/chaos.cpp:49-53 | an out-of-bounds bird is killed and adjustPoints(-1) is called exactly once; an in-bounds bird keeps both |
| Strategy.ChaosTurn | SkeetAlgorithmAbstraction/Strategy/chaos.cpp:39-43 | the velocity gets Kick: dy and dx are kicked only when randomIntCrazy(0, 15) is 0 |
| Strategy.ChaosAdvance | SkeetAlgorithmAbstraction/Strategy/chaos.cpp:36-54 | the tick equals the decorator rules [Turn, Inertia], followed by the bounds check |
| Strategy.BuoyancyAdvance | SkeetAlgorithmAbstraction/Strategy/buoyancy.cpp:17-34 | the tick equals [Drag, Inertia, AntiGravity], followed by the bounds check |
| Strategy.GravityAdvance | SkeetAlgorithmAbstraction/gravity.cpp:16-30 | the tick equals [Gravity, Inertia], followed by the bounds check |
| Strategy.InertiaAdvance | SkeetAlgorithmAbstraction/Strategy/inertia.cpp:8-22 | v becomes 0.995 v, the only velocity change; pt moves by 0.995 v; then the bounds check |
| Strategy.InertiaAdvanceWithPoints | SkeetAlgorithmAbstraction/inertia.cpp:4-18 | the same motion and kill, but the bird's points are never adjusted, since only the by-value parameter is negated |
| Strategy.ChaosTick | SkeetAlgorithmAbstraction/Strategy/chaos.cpp:39-46 | the bird moves by the turned velocity; without a turn it moves by v using one draw |
| Strategy.BuoyancyTick | SkeetAlgorithmAbstraction/Strategy/buoyancy.cpp:20-26 | the bird moves by 0.99 v; the final v is (0.99 dx, 0.99 dy + 0.05); the lift does not move it this tick |
| Strategy.GravityTick | SkeetAlgorithmAbstraction/gravity.cpp:19-22 | the bird moves by (dx, dy - 0.07); dx never changes |
| Strategy.BuoyancyAgainstFloater | SkeetAlgorithmAbstraction/Strategy/buoyancy.cpp:20-26 | the strategy floater and the decorator floater end with the same velocity, but a moving bird ends up at a different place |
| Strategy.GravityAgainstSinker | SkeetAlgorithmAbstraction/gravity.cpp:19-22 | the strategy sinker ends 0.07 lower than the decorator sinker, with the same velocity |
| Bullets.Tick | Lab08-SeparationOfConcerns/Skeet/bullet.cpp:72-126 | one tick adds v to pt exactly once and keeps v, radius and value; timed kinds count down by 1; dead iff it was dead, the countdown hits 0, or the bullet is out of bounds after the move |
| Bullets.TicksMotion | Lab08-SeparationOfConcerns/Skeet/bullet.cpp:72-80 | after n ticks a bullet is at pt + n v with v unchanged, and a timed bullet's countdown is n lower |
| Bullets.TicksDead | Lab08-SeparationOfConcerns/Skeet/bullet.cpp:86-95 | after n ticks a bullet is dead iff it was dead, its countdown lay in [1, n], or it was out of bounds after one of the ticks |
| Bullets.DeadStaysDead | bullet.h:36-40 | a dead bullet stays dead: no tick resurrects it |
| Bullets.FuseExpiry | bullet.h:88 | a fuse of 60 kills the bullet by tick 60 and not earlier unless it leaves the field; a countdown of 0 or below never kills |
| Bullets.Bullet.Pellet | bullet.h:74 | radius 1, value 1, default speed 15, launched alive from (W - 1, 1) with velocity (-speed cos a, speed sin a) |
| Bullets.Bullet.Bomb | bullet.h:88 | radius 4, value 4, default speed 10, fuse 60 |
| Bullets.Bullet.Missile | bullet.h:130 | radius 1, value 3, default speed 10 |
| Bullets.Bullet.Shrapnel | bullet.h:104-116 | at the bomb's position, alive, value 0, radius 3, countdown from random(5, 15), velocity set from random(0, 6.2) and random(10, 15); three draws |
| Bullets.Bullet.SetValue | bullet.h:37 | the value is the new value; nothing else changes |
| Bullets.Bullet.Kill | bullet.h:36 | the bullet is dead; nothing else changes |
| Bullets.Bullet.BaseMove | Lab08-SeparationOfConcerns/Skeet/bullet.cpp:72-80 | the state becomes Coast: pt + v, then dead if out of bounds; an in-bounds bullet keeps its dead flag |
| Bullets.Bullet.Move | Lab08-SeparationOfConcerns/Skeet/bullet.cpp:86-126 | the state becomes Tick of its kind; shrapnel appends one Streek and a missile one Exhaust, both from before the move |
| Bullets.Bullet.Input | bullet.h:133-139 | a missile turns by +0.04 if up and then by -0.04 if down; other kinds keep v |
| Bullets.Bullet.Throw | Lab08-SeparationOfConcerns/Skeet/bullet.cpp:59 | one `new Shrapnel(*this)`: a fresh shrapnel whose state is Fragment of the next three draws |
| Bullets.Bullet.ThrowNext | Lab08-SeparationOfConcerns/Skeet/bullet.cpp:58-59 | one pass of the loop extends the thrown volley by one fragment |
| Bullets.Bullet.Death | Lab08-SeparationOfConcerns/Skeet/bullet.cpp:56-60 | a bomb appends exactly 20 fresh shrapnel at the end and keeps the existing elements; the i-th uses the draws at 3i; other kinds change nothing |
| Bullets.Volley | Lab08-SeparationOfConcerns/Skeet/bullet.cpp:58-59 | n throws give exactly n fragments |
| Bullets.VolleyShape | Lab08-SeparationOfConcerns/Skeet/bullet.cpp:58-59 | the i-th fragment of a volley comes from the three draws at calls + 3i |
| Bullets.Steer | bullet.h:133-139 | no key: v kept; up: turn +0.04; down: turn -0.04; both: up first, then down |
| Bullets.Fragment | bullet.h:104-116 | a shrapnel is at the bomb's position, alive, value 0, radius 3, countdown in [5, 14], velocity set from an angle in [0, 6.2] and a speed in [10, 15] |
| Bullets.FragmentDraws | bullet.h:107-110 | the countdown, the angle and the speed come from three successive draws, in that order |
| SeparatedBullets.NewStorage | Lab08-SeparationOfConcerns/Skeet/bullet.cpp:274-287 | a storage exists iff the three assertions hold; it is alive at (W - 1, 1) with the launch velocity, the given radius and value, and a countdown of 0 |
| SeparatedBullets.DefaultsOf | bullet.h:229-260 | the default speed, radius and value are 15/1/1 for PelletLogic, 10/4/4 for BombLogic and 10/1/3 for MissileLogic; ShrapnelLogic has none |
| SeparatedBullets.CreateBulletStorage | bullet.h:229-260 | a storage exists iff the assertions hold at the kind's default speed; it starts at (W - 1, 1) with the launch velocity and the kind's default radius and value, is alive, and starts with a countdown of 0 for every kind, bombs included |
| SeparatedBullets.CreateBulletStorageFixed | bullet.h:238 | the corrected factory succeeds exactly when the one as written does, and its storage differs only in a countdown of 60 for bombs |
| SeparatedBullets.CreateAgreesWithBullet | bullet.h:229-260 | pellet and missile storages are the states of the Pellet and Missile constructors; a bomb storage has a countdown of 0 instead of 60 |
| SeparatedBullets.BombStorageNeverExpires | bullet.h:238 | as written, a bomb storage dies only by leaving the field |
| SeparatedBullets.FixedBombStorage | bullet.h:238 | with the fuse set, a bomb storage is the Bomb's state and is dead after 60 ticks |
| SeparatedBullets.Piece | Lab08-SeparationOfConcerns/Skeet/bullet.cpp:398-406 | a piece exists iff the launcher's assertions hold for the drawn angle and speed; it is then the fixed piece |
| SeparatedBullets.FixedPiece | Lab08-SeparationOfConcerns/Skeet/bullet.cpp:384-388 | a piece is at the bomb's position, alive, radius 3, value 0, countdown 0, with the angle in [0, 6.2] and the speed in [10, 15] |
| SeparatedBullets.PieceNeverExpires | Lab08-SeparationOfConcerns/Skeet/bullet.cpp:412-424 | a piece, whose countdown is 0, dies under ShrapnelLogic::move only by leaving the field |
| SeparatedBullets.Burst | Lab08-SeparationOfConcerns/Skeet/bullet.cpp:380-392 | a burst that does not abort has exactly n pieces |
| SeparatedBullets.FixedBurst | Lab08-SeparationOfConcerns/Skeet/bullet.cpp:380-392 | the corrected burst has exactly n pieces |
| SeparatedBullets.BurstIsFixed | Lab08-SeparationOfConcerns/Skeet/bullet.cpp:380-392 | a burst that does not abort equals the fixed burst |
| SeparatedBullets.FixedBurstPieces | Lab08-SeparationOfConcerns/Skeet/bullet.cpp:382-389 | the i-th piece is the fixed piece from the two draws at calls + 2i |
| SeparatedBullets.PieceNeedsFirstQuadrant | Lab08-SeparationOfConcerns/Skeet/bullet.cpp:384-387 | a piece passes the constructor's assertions iff the field is wide enough and the cosine and sine of its angle are both non-negative |
| SeparatedBullets.BurstAbortsOnLastAngle | Lab08-SeparationOfConcerns/Skeet/bullet.cpp:384-387 | a first draw of RAND_MAX gives the angle 6.2; with sin(6.2) < 0 the assertion fails and the burst aborts |
| SeparatedBullets.FirstPieceAborts | Lab08-SeparationOfConcerns/Skeet/bullet.cpp:382-390 | if the first piece aborts, so does every longer burst |
| SeparatedBullets.BurstStaysAborted | Lab08-SeparationOfConcerns/Skeet/bullet.cpp:382-390 | once a burst has aborted, every longer burst aborts too |
| SeparatedBullets.CreateBulletStorageForShrapnel | Lab08-SeparationOfConcerns/Skeet/bullet.cpp:398-406 | the result is Piece of the next two draws, angle first, at the bomb's position |
| SeparatedBullets.AfterBurst | Lab08-SeparationOfConcerns/Skeet/bullet.cpp:389 | the list after a burst is the old list followed by the pieces, and exists iff the burst does |
| SeparatedBullets.BulletLogic.IsOutOfBounds | Lab08-SeparationOfConcerns/Skeet/bullet.cpp:314-322 | out of bounds iff the storage's point lies outside the field widened by its radius |
| SeparatedBullets.BulletLogic.Kill | bullet.h:187 | only the storage's dead flag is set |
| SeparatedBullets.BulletLogic.SetValue | bullet.h:188 | only the storage's value changes |
| SeparatedBullets.BulletLogic.BaseMove | Lab08-SeparationOfConcerns/Skeet/bullet.cpp:329-339 | it writes back pt + v, then kills if out of bounds: Coast |
| SeparatedBullets.BulletLogic.CountDown | Lab08-SeparationOfConcerns/Skeet/bullet.cpp:368-370 | the countdown drops by 1 and kills on reaching 0 |
| SeparatedBullets.BulletLogic.Move | Lab08-SeparationOfConcerns/Skeet/bullet.cpp:365-437 | the storage becomes Tick of its kind, the same as the Bullet hierarchy; the same trail is appended |
| SeparatedBullets.BulletLogic.Death | Lab08-SeparationOfConcerns/Skeet/bullet.cpp:305-308 | the base logic only sets dead; a bomb keeps its storage and appends Burst's 20 pieces, which are the fixed burst's, or aborts |
| SeparatedBullets.ThrowBurst | Lab08-SeparationOfConcerns/Skeet/bullet.cpp:380-392 | the loop yields Burst of 20 from the current draws, using two draws per piece |
| SeparatedBullets.MissileInput | bullet.h:302-308 | as written, the storage is unchanged, since the turn lands on a copy |
| SeparatedBullets.MissileInputFixed | bullet.h:302-308 | the corrected input sets the velocity to Steer of the old one for every key combination, as `Missile::input` does, and changes nothing else |
| SeparatedBullets.MissileTurnLost | bullet.h:302-308 | whenever the up turn changes v, the input as written loses it and the fixed input keeps it, as Missile::input does |
| Mediator.AdjustmentsByWatchers | Lab06-MessagePassing/Mediator/Skeet/hitRatioColleague.cpp:8-9 | BIRD_DIED adjusts a status once per hit-ratio colleague of it, by the message's value; BULLET_FIRED adjusts nothing |
| Mediator.UnwatchedStatus | Lab06-MessagePassing/Mediator/Skeet/mediator.cpp:7-8 | a status no colleague holds is never adjusted |
| Mediator.AdjustmentsAppend | Lab06-MessagePassing/Mediator/Skeet/mediator.cpp:7-8 | delivering to one more colleague adds only that colleague's adjustment |
| Mediator.SingleWatcher | Lab06-MessagePassing/Mediator/Skeet/birdColleague.cpp:4-16 | with one hit-ratio colleague, wentOutOfBounds adjusts by -points, wasShot by +points, and a fired bullet by nothing |
| Mediator.Colleague.Notify | Lab06-MessagePassing/Mediator/Skeet/hitRatioColleague.cpp:6-10 | the call is recorded once; a hit-ratio colleague calls adjust exactly once with the value on BIRD_DIED and never otherwise |
| Mediator.Colleague.WentOutOfBounds | Lab06-MessagePassing/Mediator/Skeet/birdColleague.cpp:4-9 | the message is BIRD_DIED with -points; the mediator delivers it once to every colleague; the bird is only read |
| Mediator.Colleague.WasShot | Lab06-MessagePassing/Mediator/Skeet/birdColleague.cpp:11-16 | the message is BIRD_DIED with +points, delivered in the same way |
| Mediator.Colleague.FiredBullet | Lab06-MessagePassing/Mediator/Skeet/bulletColleague.cpp:4-9 | the message is BULLET_FIRED with the bullet's value, delivered once to every colleague; no status changes |
| Mediator.Mediator.Notify | Lab06-MessagePassing/Mediator/Skeet/mediator.cpp:5-9 | every colleague gets the same message exactly once, in index order; nothing happens with no colleagues; the list is unchanged; statuses get Adjustments |
| Mediator.Mediator.NotifyNext | Lab06-MessagePassing/Mediator/Skeet/mediator.cpp:8 | one pass of the loop: colleague i gets the message |

## Left out

- Drawing: `draw`, `output`, `drawDisk`, `drawLine`, `drawDot` and the
  `*Interface::output` methods are OpenGL output only.
- The Visitor files dispatch to drawing only, so they are left out.
- The contents of `effect.h` are not part of this model: an effect is
  recorded with the position and velocity it was made from.
- `position.h` is not part of this model. Positions and velocities are
  exact pairs of reals; IEEE rounding is not modelled.
- `cos`, `sin`, `Velocity::turn` and `Velocity::set` are uninterpreted,
  since their definitions are not visible. Only two lemmas depend on their
  values, and they take them as hypotheses:
  `SeparatedBullets.BurstAbortsOnLastAngle` assumes `sin(6.2) < 0`, and
  `SeparatedBullets.MissileTurnLost` assumes `turn(v, 0.04) != v`.
- `rand()` is an injected stream and not a generator. That stream is the
  only state the model keeps for it.
- The model fixes RAND_MAX at 0x7fffffff (glibc and macOS). The Windows
  value of 32767 is not modelled.
- The order in which C++ evaluates the arguments of
  `new BulletStorage(random(...), random(...), ...)` and
  `v.set(random(...), random(...))` is unspecified. The model draws the
  angle first.
- Assertions are modelled as active, as in a debug build. With NDEBUG the
  bursts of `BombLogic::death` would not abort.
- The strategy Bird's own header is not part of this model. Its adjusters
  are modelled from their names and call sites. For
  `SkeetAlgorithmAbstraction/inertia.cpp:7-10` the model assumes that
  `adjustVelocity()` and `adjustPosition()` return references, so that
  `adjustVelocity() *= 0.995` and `adjustPosition().add(...)` change the
  bird. `adjustPoints`, whose
  effect on the points is not visible, is recorded as a log of its
  arguments (`Strategy.Bird.pointAdjustments`).
- `Status::adjust` and `score.h` are not part of this model.
  `Mediator.Status.Adjust` records its arguments.
- `ScoreColleague` has only a declaration, so it is not modelled.
- The header-only mediator stubs are left out. `enroll` and `unenroll`
  have empty bodies, and nothing ever sets a colleague's mediator pointer
  or fills the colleague vector. The model gives the mediator at
  construction, and the colleague list is its `colleagues` field.
- The headers declare `Message` as an enum and `Mediator::notify` as an
  empty inline function taking its argument by value. The `.cpp` files use
  `Message` as a struct with `type` and `value`, and the model follows
  them.
- The bird and bullet colleagues' `notify` bodies are empty in their
  headers. Here they only record the call.
- In-place lists of pointers:
  - `Bullets.Bullet.Death` keeps a list of bullet objects;
  - the separated copy keeps storages as values, so aliasing between a
    `BulletStorage*` in the list and the bomb's own storage is not
    captured.
- `BulletLogic::death` takes a `std::list<Bullet*>` in
  `Lab08-SeparationOfConcerns/Skeet/bullet.cpp:305` and a
  `std::list<BulletStorage*>` in `bullet.h:196`. The model takes a list of
  storages, as the header and `BombLogic::death` do.
- `int` countdowns are unbounded integers. A countdown that starts at 0 runs
  below zero without the 32-bit wrap-around after 2^31 ticks.
- Dead entities: `Bird::advance` (`Decorator/bird.h:68-82`) and
  `Bullet::move` (`Lab08-SeparationOfConcerns/Skeet/bullet.cpp:72-80`) do
  not test `dead` before moving. The model follows the code, and
  `Decorator.Bird.Advance` states what a dead bird does.
- Mediator.Colleague.WentOutOfBounds and Mediator.Colleague.WasShot read
  the points of the decorator bird. The bird of the Mediator lab's own
  `bird.h` is not part of this model.

## Findings

| source | as written | input that shows it | evidently intended | confidence | as-written member | corrected member |
|---|---|---|---|---|---|---|
| bullet.h:238 | `BombLogic::createBulletStorage` returns before `storage.setTimeToDie(60)`, so a bomb storage starts with a countdown of 0 and its fuse never fires | any launchable angle: `Ticks(Bomb, dims, s, n).dead` iff the bomb left the field | the returned storage carries a fuse of 60, like `Bomb` | not executed | SeparatedBullets.BombStorageNeverExpires | SeparatedBullets.FixedBombStorage |
| Lab08-SeparationOfConcerns/Skeet/bullet.cpp:384-387 | shrapnel pieces go through the launcher's constructor, whose assertions want dx <= 0 and dy >= 0, while the angle is drawn from [0, 6.2] | a first angle draw of RAND_MAX gives the angle 6.2; since sin(6.2) < 0, dy < 0 and the assertion aborts the burst. More generally a piece survives only when cos and sin of its angle are both non-negative, so any angle in (pi/2, 6.2] aborts it: about 75% of draws, and a 20-piece burst survives with probability about 0.25^20 | pieces fly in any direction, as `Shrapnel(const Bomb&)` does with `v.set` | not executed | SeparatedBullets.BurstAbortsOnLastAngle | SeparatedBullets.FixedBurstPieces |
| bullet.h:302-308 | `MissileInterface::input` turns the copy that `getVelocity()` returns by value, so the missile never steers | isUp with a velocity that the turn changes | the turned velocity is written back, as `Missile::input` does | not executed | SeparatedBullets.MissileTurnLost | SeparatedBullets.MissileInputFixed |
