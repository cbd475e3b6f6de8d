/**
 * The decorator birds (Decorator/bird.h, Decorator/bird.cpp): a bird owns an
 * ordered list of movement rules, and one tick applies them in order and
 * then kills an out-of-bounds bird, negating its points. The four kinds
 * differ only in their start ranges and their rule recipe.
 */
module Decorator {
  import opened Geometry
  import opened Random
  import opened Movement

  /**
   * Where a bird kind may start: y on the left edge, then dx, then dy, each
   * drawn by randomFloat over its range, in that order.
   */
  datatype Spawn = Spawn(yMin: real, yMax: real, dxMin: real, dxMax: real, dyMin: real, dyMax: real) {
    predicate Valid() {
      yMin <= yMax && dxMin <= dxMax && dyMin <= dyMax
    }
  }

  /** Standard and Crazy: the middle half of the screen, a slight slope either way. */
  function MiddleSpawn(height: real, speed: real): (s: Spawn)
    requires 0.0 <= height && 0.0 <= speed
    ensures s.Valid() && 0.0 <= s.yMin && s.yMax <= height && -s.dyMin == s.dyMax
  {
    Spawn(height * 0.25, height * 0.75, speed - 0.5, speed + 0.5, -speed / 5.0, speed / 5.0)
  }

  /** Floater: the lower half of the screen, never heading down. */
  function FloaterSpawn(height: real, speed: real): (s: Spawn)
    requires 0.0 <= height && 0.0 <= speed
    ensures s.Valid() && 0.0 <= s.yMin && s.yMax <= height && s.dyMin == 0.0
  {
    Spawn(height * 0.01, height * 0.5, speed - 0.5, speed + 0.5, 0.0, speed / 3.0)
  }

  /** Sinker: the upper half of the screen, never heading up. */
  function SinkerSpawn(height: real, speed: real): (s: Spawn)
    requires 0.0 <= height && 0.0 <= speed
    ensures s.Valid() && 0.0 <= s.yMin && s.yMax <= height && s.dyMax == 0.0
  {
    Spawn(height * 0.50, height * 0.95, speed - 0.5, speed + 0.5, -speed / 3.0, 0.0)
  }

  /**
   * The start a Spawn yields from the rand() results at call numbers calls,
   * calls + 1 and calls + 2.
   */
  function Launch(s: Spawn, draws: Draws, calls: nat): (m: Motion)
    requires s.Valid()
    ensures m.pt.x == 0.0 && s.yMin <= m.pt.y <= s.yMax
    ensures s.dxMin <= m.v.dx <= s.dxMax && s.dyMin <= m.v.dy <= s.dyMax
    ensures draws(calls) == 0 ==> m.pt.y == s.yMin
    ensures draws(calls + 1) == 0 ==> m.v.dx == s.dxMin
  {
    Motion(Position(0.0, RealFromDraw(draws(calls), s.yMin, s.yMax)),
           Velocity(RealFromDraw(draws(calls + 1), s.dxMin, s.dxMax),
                    RealFromDraw(draws(calls + 2), s.dyMin, s.dyMax)))
  }

  /** The three draws of a constructor body: pt.setY, v.setDx, v.setDy. */
  method Place(s: Spawn, rng: Rng) returns (pt: Position, v: Velocity)
    requires s.Valid()
    modifies rng`calls
    ensures Motion(pt, v) == Launch(s, rng.draws, old(rng.calls))
    ensures rng.calls == old(rng.calls) + 3
  {
    var y := rng.RandomReal(s.yMin, s.yMax);
    pt := Position(0.0, y);
    var dx := rng.RandomReal(s.dxMin, s.dxMax);
    var dy := rng.RandomReal(s.dyMin, s.dyMax);
    v := Velocity(dx, dy);
  }

  class Bird {
    /** Bird::dimensions, the screen size shared by every bird. */
    const dimensions: Position
    var pt: Position
    var v: Velocity
    var radius: real
    var dead: bool
    var points: int
    var movements: seq<Rule>

    /**
     * Bird(): alive, worth nothing, radius 1, no movements. The default
     * Position and Velocity are not part of the model; they are set to 0 here.
     */
    constructor (dims: Position)
      ensures dimensions == dims && !dead && points == 0 && radius == 1.0 && movements == []
    {
      dimensions := dims;
      pt, v := Position(0.0, 0.0), Velocity(0.0, 0.0);
      dead, points, radius := false, 0, 1.0;
      movements := [];
    }

    /**
     * Standard: starts at the left edge in the middle half of the screen,
     * drifting right at about speed; moves by [Inertia, Drag].
     */
    constructor Standard(dims: Position, rng: Rng, radius: real := 25.0, speed: real := 5.0, points: int := 10)
      requires 0.0 <= dims.y && 0.0 <= speed
      modifies rng`calls
      ensures dimensions == dims && !dead && this.points == points && this.radius == radius
      ensures Motion(pt, v) == Launch(MiddleSpawn(dims.y, speed), rng.draws, old(rng.calls))
      ensures rng.calls == old(rng.calls) + 3
      ensures movements == [Inertia, Drag]
    {
      dimensions := dims;
      dead := false;
      var start, velocity := Place(MiddleSpawn(dims.y, speed), rng);
      pt, v := start, velocity;
      this.points := points;
      this.radius := radius;
      movements := [];
      new;
      AddMovement(Inertia);
      AddMovement(Drag);
    }

    /**
     * Floater: starts low on the left edge with an upward drift; moves by
     * [Inertia, Drag, AntiGravity].
     */
    constructor Floater(dims: Position, rng: Rng, radius: real := 30.0, speed: real := 5.0, points: int := 15)
      requires 0.0 <= dims.y && 0.0 <= speed
      modifies rng`calls
      ensures dimensions == dims && !dead && this.points == points && this.radius == radius
      ensures Motion(pt, v) == Launch(FloaterSpawn(dims.y, speed), rng.draws, old(rng.calls))
      ensures rng.calls == old(rng.calls) + 3
      ensures movements == [Inertia, Drag, AntiGravity]
    {
      dimensions := dims;
      dead := false;
      var start, velocity := Place(FloaterSpawn(dims.y, speed), rng);
      pt, v := start, velocity;
      this.points := points;
      this.radius := radius;
      movements := [];
      new;
      AddMovement(Inertia);
      AddMovement(Drag);
      AddMovement(AntiGravity);
    }

    /**
     * Sinker: starts high on the left edge with a downward drift; moves by
     * [Inertia, Gravity].
     */
    constructor Sinker(dims: Position, rng: Rng, radius: real := 30.0, speed: real := 4.5, points: int := 20)
      requires 0.0 <= dims.y && 0.0 <= speed
      modifies rng`calls
      ensures dimensions == dims && !dead && this.points == points && this.radius == radius
      ensures Motion(pt, v) == Launch(SinkerSpawn(dims.y, speed), rng.draws, old(rng.calls))
      ensures rng.calls == old(rng.calls) + 3
      ensures movements == [Inertia, Gravity]
    {
      dimensions := dims;
      dead := false;
      var start, velocity := Place(SinkerSpawn(dims.y, speed), rng);
      pt, v := start, velocity;
      this.points := points;
      this.radius := radius;
      movements := [];
      new;
      AddMovement(Inertia);
      AddMovement(Gravity);
    }

    /**
     * Crazy: starts like a Standard bird; moves by [Inertia, Drag, Turn].
     */
    constructor Crazy(dims: Position, rng: Rng, radius: real := 30.0, speed: real := 4.5, points: int := 30)
      requires 0.0 <= dims.y && 0.0 <= speed
      modifies rng`calls
      ensures dimensions == dims && !dead && this.points == points && this.radius == radius
      ensures Motion(pt, v) == Launch(MiddleSpawn(dims.y, speed), rng.draws, old(rng.calls))
      ensures rng.calls == old(rng.calls) + 3
      ensures movements == [Inertia, Drag, Turn]
    {
      dimensions := dims;
      dead := false;
      var start, velocity := Place(MiddleSpawn(dims.y, speed), rng);
      pt, v := start, velocity;
      this.points := points;
      this.radius := radius;
      movements := [];
      new;
      AddMovement(Inertia);
      AddMovement(Drag);
      AddMovement(Turn);
    }

    method Kill()
      modifies this`dead
      ensures dead
    {
      dead := true;
    }

    /** addMovement: the rule goes to the end, after those already registered. */
    method AddMovement(rule: Rule)
      modifies this`movements
      ensures movements == old(movements) + [rule]
    {
      movements := movements + [rule];
    }

    method ClearMovements()
      modifies this`movements
      ensures movements == []
    {
      movements := [];
    }

    /** isOutOfBounds: the bird has left the field widened by its radius. */
    predicate IsOutOfBounds()
      reads this
      ensures IsOutOfBounds() <==> !InField(pt, radius, dimensions)
    {
      OutOfBounds(pt, radius, dimensions)
    }

    /**
     * The loop of advance: every movement once, in list order, each on the
     * position and velocity the previous one left.
     */
    method ApplyMovements(rng: Rng)
      modifies this`pt, this`v, rng`calls
      ensures (Motion(pt, v), rng.calls) == Run(movements, Motion(old(pt), old(v)), rng.draws, old(rng.calls))
    {
      ghost var start := Motion(pt, v);
      for i := 0 to |movements|
        invariant (Motion(pt, v), rng.calls) == Run(movements[..i], start, rng.draws, old(rng.calls))
      {
        RunAppend(movements[..i], movements[i], start, rng.draws, old(rng.calls));
        assert movements[..i + 1] == movements[..i] + [movements[i]];
        pt, v := AffectMovement(movements[i], pt, v, rng);
      }
      assert movements[..|movements|] == movements;
    }

    /**
     * advance: the movements, then an out-of-bounds bird is killed and its
     * points change sign. The dead flag is not consulted first, so a dead
     * bird still out of bounds moves again and flips its points again.
     */
    method Advance(rng: Rng)
      modifies this`pt, this`v, this`dead, this`points, rng`calls
      ensures (Motion(pt, v), rng.calls) == Run(movements, Motion(old(pt), old(v)), rng.draws, old(rng.calls))
      ensures movements == [] ==> pt == old(pt) && v == old(v)
      ensures dead == (old(dead) || OutOfBounds(pt, radius, dimensions))
      ensures points == if OutOfBounds(pt, radius, dimensions) then -old(points) else old(points)
    {
      ApplyMovements(rng);
      if IsOutOfBounds() {
        Kill();
        points := points * -1;
      }
    }
  }

  /** One tick of a Standard bird: it moves by its velocity, which then loses 1%. */
  lemma StandardTick(s: Motion, draws: Draws, calls: nat)
    ensures Run([Inertia, Drag], s, draws, calls) == (Motion(s.pt.Add(s.v), s.v.Scale(DRAG)), calls)
  {
    RunTwo(Inertia, Drag, s, draws, calls);
  }

  /** One tick of a Floater: it moves by its velocity, which loses 1% and then gains lift. */
  lemma FloaterTick(s: Motion, draws: Draws, calls: nat)
    ensures Run([Inertia, Drag, AntiGravity], s, draws, calls)
         == (Motion(s.pt.Add(s.v), Velocity(DRAG * s.v.dx, DRAG * s.v.dy + LIFT)), calls)
  {
    StandardTick(s, draws, calls);
    RunThree(Inertia, Drag, AntiGravity, s, draws, calls);
  }

  /** One tick of a Sinker: it moves by its velocity, which then falls by the pull; no drag. */
  lemma SinkerTick(s: Motion, draws: Draws, calls: nat)
    ensures Run([Inertia, Gravity], s, draws, calls) == (Motion(s.pt.Add(s.v), Velocity(s.v.dx, s.v.dy - PULL)), calls)
  {
    RunTwo(Inertia, Gravity, s, draws, calls);
  }

  /**
   * One tick of a Crazy bird: it moves by its velocity; the dragged velocity
   * is then kept, or, one time in fifteen, kicked by at most 1.5 on each axis.
   */
  lemma CrazyTick(s: Motion, draws: Draws, calls: nat)
    ensures var r := Run([Inertia, Drag, Turn], s, draws, calls);
      var dragged := s.v.Scale(DRAG);
      && r.0.pt == s.pt.Add(s.v)
      && (IntFromDraw(draws(calls), 0, TURN_ODDS) != 0 ==> r == (Motion(r.0.pt, dragged), calls + 1))
      && -TURN_KICK <= r.0.v.dx - dragged.dx <= TURN_KICK
      && -TURN_KICK <= r.0.v.dy - dragged.dy <= TURN_KICK
  {
    StandardTick(s, draws, calls);
    RunThree(Inertia, Drag, Turn, s, draws, calls);
  }
}
