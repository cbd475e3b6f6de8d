/**
 * The strategy birds (SkeetAlgorithmAbstraction/Strategy and the two files
 * beside it): the same per-tick rules as the decorator birds, hard-coded in
 * one advance(Bird&) per kind. Chaos turns, then moves; Buoyancy drags,
 * moves, then lifts; Gravity pulls, then moves; Inertia drags by 0.995, then
 * moves. Each then kills an out-of-bounds bird and calls adjustPoints(-1).
 *
 * The strategy Bird's own header is not part of this model. Its adjusters
 * are modelled by what their names and call sites say (scale the velocity,
 * add to the position, add to one velocity component); adjustPoints, whose
 * effect on the points is not visible, is recorded as a log of its
 * arguments.
 */
module Strategy {
  import opened Geometry
  import opened Random
  import opened Movement

  /** The drag factor of Inertia::advance, stronger than ApplyDrag's. */
  const INERTIA_DRAG: real := 0.995

  /** The fields the strategies read and write. */
  class Bird {
    const dimensions: Position
    var pt: Position
    var v: Velocity
    var radius: real
    var dead: bool
    /** The arguments of every adjustPoints call so far, oldest first. */
    var pointAdjustments: seq<int>

    constructor (dims: Position, pt: Position, v: Velocity, radius: real)
      ensures dimensions == dims && this.pt == pt && this.v == v && this.radius == radius
      ensures !dead && pointAdjustments == []
    {
      dimensions := dims;
      this.pt, this.v, this.radius := pt, v, radius;
      dead, pointAdjustments := false, [];
    }

    /** adjustVelocity(k): the velocity scaled by k. */
    method AdjustVelocity(k: real)
      modifies this`v
      ensures v == old(v).Scale(k)
    {
      v := v.Scale(k);
    }

    /** adjustPosition(d): the position moved by d. */
    method AdjustPosition(d: Velocity)
      modifies this`pt
      ensures pt == old(pt).Add(d)
    {
      pt := pt.Add(d);
    }

    method AddVelocityDx(d: real)
      modifies this`v
      ensures v == old(v).AddDx(d)
    {
      v := v.AddDx(d);
    }

    method AddVelocityDy(d: real)
      modifies this`v
      ensures v == old(v).AddDy(d)
    {
      v := v.AddDy(d);
    }

    method Kill()
      modifies this`dead
      ensures dead
    {
      dead := true;
    }

    method AdjustPoints(delta: int)
      modifies this`pointAdjustments
      ensures pointAdjustments == old(pointAdjustments) + [delta]
    {
      pointAdjustments := pointAdjustments + [delta];
    }

    /** isOutOfBounds: the bird has left the field widened by its radius. */
    predicate IsOutOfBounds()
      reads this
      ensures IsOutOfBounds() <==> !InField(pt, radius, dimensions)
    {
      OutOfBounds(pt, radius, dimensions)
    }
  }

  /**
   * The common tail of every strategy: an out-of-bounds bird is killed and
   * adjustPoints(-1) is called once; an in-bounds bird is left alone.
   */
  method CheckBounds(bird: Bird)
    modifies bird`dead, bird`pointAdjustments
    ensures bird.dead == (old(bird.dead) || bird.IsOutOfBounds())
    ensures bird.pointAdjustments == old(bird.pointAdjustments) + if bird.IsOutOfBounds() then [-1] else []
  {
    if bird.IsOutOfBounds() {
      bird.Kill();
      bird.AdjustPoints(-1);
    }
  }

  /** The erratic turn at the head of Chaos::advance: the rule Turn. */
  method ChaosTurn(bird: Bird, rng: Rng)
    modifies bird`v, rng`calls
    ensures (bird.v, rng.calls) == Kick(old(bird.v), rng.draws, old(rng.calls))
  {
    var chance := rng.RandomInt(0, TURN_ODDS);
    if chance == 0 {
      KickTurns(old(bird.v), rng.draws, old(rng.calls));
      var ddy := rng.RandomReal(-TURN_KICK, TURN_KICK);
      bird.AddVelocityDy(ddy);
      var ddx := rng.RandomReal(-TURN_KICK, TURN_KICK);
      bird.AddVelocityDx(ddx);
    }
  }

  /**
   * Chaos::advance: one time in fifteen dy and then dx get a random kick;
   * then the bird moves by the velocity it now has. That is the decorator
   * rules [Turn, Inertia].
   */
  method ChaosAdvance(bird: Bird, rng: Rng)
    modifies bird`pt, bird`v, bird`dead, bird`pointAdjustments, rng`calls
    ensures (Motion(bird.pt, bird.v), rng.calls)
         == Run([Turn, Inertia], Motion(old(bird.pt), old(bird.v)), rng.draws, old(rng.calls))
    ensures bird.dead == (old(bird.dead) || bird.IsOutOfBounds())
    ensures bird.pointAdjustments == old(bird.pointAdjustments) + if bird.IsOutOfBounds() then [-1] else []
  {
    ghost var s := Motion(bird.pt, bird.v);
    ChaosTurn(bird, rng);
    bird.AdjustPosition(bird.v);
    ChaosTick(s, rng.draws, old(rng.calls));
    CheckBounds(bird);
  }

  /**
   * Buoyancy::advance: drag, then the move, then the lift; the decorator
   * rules [Drag, Inertia, AntiGravity].
   */
  method BuoyancyAdvance(bird: Bird, ghost draws: Draws, ghost calls: nat)
    modifies bird`pt, bird`v, bird`dead, bird`pointAdjustments
    ensures (Motion(bird.pt, bird.v), calls)
         == Run([Drag, Inertia, AntiGravity], Motion(old(bird.pt), old(bird.v)), draws, calls)
    ensures bird.dead == (old(bird.dead) || bird.IsOutOfBounds())
    ensures bird.pointAdjustments == old(bird.pointAdjustments) + if bird.IsOutOfBounds() then [-1] else []
  {
    ghost var s := Motion(bird.pt, bird.v);
    bird.AdjustVelocity(DRAG);
    bird.AdjustPosition(bird.v);
    bird.AddVelocityDy(LIFT);
    BuoyancyTick(s, draws, calls);
    CheckBounds(bird);
  }

  /**
   * Gravity::advance: the pull, then the move; the decorator rules
   * [Gravity, Inertia]. Despite its comment it has no drag.
   */
  method GravityAdvance(bird: Bird, ghost draws: Draws, ghost calls: nat)
    modifies bird`pt, bird`v, bird`dead, bird`pointAdjustments
    ensures (Motion(bird.pt, bird.v), calls)
         == Run([Gravity, Inertia], Motion(old(bird.pt), old(bird.v)), draws, calls)
    ensures bird.dead == (old(bird.dead) || bird.IsOutOfBounds())
    ensures bird.pointAdjustments == old(bird.pointAdjustments) + if bird.IsOutOfBounds() then [-1] else []
  {
    ghost var s := Motion(bird.pt, bird.v);
    bird.AddVelocityDy(-PULL);
    bird.AdjustPosition(bird.v);
    GravityTick(s, draws, calls);
    CheckBounds(bird);
  }

  /**
   * Inertia::advance(Bird&): the velocity loses half a percent, then the bird
   * moves by it; no other velocity change.
   */
  method InertiaAdvance(bird: Bird)
    modifies bird`pt, bird`v, bird`dead, bird`pointAdjustments
    ensures bird.v == old(bird.v).Scale(INERTIA_DRAG)
    ensures bird.pt == old(bird.pt).Add(old(bird.v).Scale(INERTIA_DRAG))
    ensures bird.dead == (old(bird.dead) || bird.IsOutOfBounds())
    ensures bird.pointAdjustments == old(bird.pointAdjustments) + if bird.IsOutOfBounds() then [-1] else []
  {
    bird.AdjustVelocity(INERTIA_DRAG);
    bird.AdjustPosition(bird.v);
    CheckBounds(bird);
  }

  /**
   * Inertia::advance(Bird&, int points), the older copy: the same motion and
   * kill, but the sign change lands on the by-value parameter, so the bird's
   * points are never adjusted.
   */
  method InertiaAdvanceWithPoints(bird: Bird, points: int)
    modifies bird`pt, bird`v, bird`dead
    ensures bird.v == old(bird.v).Scale(INERTIA_DRAG)
    ensures bird.pt == old(bird.pt).Add(old(bird.v).Scale(INERTIA_DRAG))
    ensures bird.dead == (old(bird.dead) || bird.IsOutOfBounds())
    ensures bird.pointAdjustments == old(bird.pointAdjustments)
  {
    var local := points;
    bird.AdjustVelocity(INERTIA_DRAG);
    bird.AdjustPosition(bird.v);
    if bird.IsOutOfBounds() {
      bird.Kill();
      local := local * -1;
    }
  }

  /**
   * A Chaos tick: the turn comes first, so the bird moves by the turned
   * velocity, which is the velocity it keeps.
   */
  lemma ChaosTick(s: Motion, draws: Draws, calls: nat)
    ensures var r := Run([Turn, Inertia], s, draws, calls);
      var turned := Affect(Turn, s, draws, calls);
      && r == (Motion(s.pt.Add(turned.0.v), turned.0.v), turned.1)
      && (IntFromDraw(draws(calls), 0, TURN_ODDS) != 0 ==> r == (Motion(s.pt.Add(s.v), s.v), calls + 1))
  {
    RunTwo(Turn, Inertia, s, draws, calls);
  }

  /**
   * A Buoyancy tick moves the bird by the dragged velocity; the lift only
   * shows in the velocity it keeps.
   */
  lemma BuoyancyTick(s: Motion, draws: Draws, calls: nat)
    ensures Run([Drag, Inertia, AntiGravity], s, draws, calls)
         == (Motion(s.pt.Add(s.v.Scale(DRAG)), Velocity(DRAG * s.v.dx, DRAG * s.v.dy + LIFT)), calls)
  {
    RunTwo(Drag, Inertia, s, draws, calls);
    RunThree(Drag, Inertia, AntiGravity, s, draws, calls);
  }

  /** A Gravity tick moves the bird by the pulled velocity; dx never changes. */
  lemma GravityTick(s: Motion, draws: Draws, calls: nat)
    ensures var pulled := Velocity(s.v.dx, s.v.dy - PULL);
      Run([Gravity, Inertia], s, draws, calls) == (Motion(s.pt.Add(pulled), pulled), calls)
  {
    RunTwo(Gravity, Inertia, s, draws, calls);
  }

  /**
   * The two floaters part ways: the strategy bird drags before it moves, the
   * decorator bird after, so a moving bird lands somewhere else.
   */
  lemma BuoyancyAgainstFloater(s: Motion, draws: Draws, calls: nat)
    requires s.v != Velocity(0.0, 0.0)
    ensures Run([Drag, Inertia, AntiGravity], s, draws, calls).0.pt
         != Run([Inertia, Drag, AntiGravity], s, draws, calls).0.pt
    ensures Run([Drag, Inertia, AntiGravity], s, draws, calls).0.v
         == Run([Inertia, Drag, AntiGravity], s, draws, calls).0.v
  {
    BuoyancyTick(s, draws, calls);
    RunTwo(Inertia, Drag, s, draws, calls);
    RunThree(Inertia, Drag, AntiGravity, s, draws, calls);
  }

  /**
   * The two sinkers part ways too: the strategy bird falls by the pull on
   * the tick it is applied, the decorator bird one tick later.
   */
  lemma GravityAgainstSinker(s: Motion, draws: Draws, calls: nat)
    ensures var strategy := Run([Gravity, Inertia], s, draws, calls).0;
      var decorator := Run([Inertia, Gravity], s, draws, calls).0;
      strategy.v == decorator.v && strategy.pt == Position(decorator.pt.x, decorator.pt.y - PULL)
  {
    GravityTick(s, draws, calls);
    RunTwo(Inertia, Gravity, s, draws, calls);
  }
}
