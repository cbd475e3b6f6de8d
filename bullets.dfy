/**
 * The projectiles of bullet.h and Lab08-SeparationOfConcerns/Skeet/bullet.cpp:
 * Pellet, Bomb, Shrapnel and Missile. A bullet is launched from the top
 * right corner, moves by its velocity once a tick and dies when it leaves
 * the widened field; bombs and shrapnel also die when their countdown
 * reaches 0, a bomb's death throws 20 shrapnel, shrapnel and missiles leave a
 * trail of effects, and a missile can be steered.
 *
 * The per-tick behaviour is specified once on values (Tick, Ticks) and
 * shared with the separation-of-concerns copy in bullet_logic.dfy.
 */
module Bullets {
  import opened Geometry
  import opened Random

  datatype Option<T> = None | Some(value: T)

  /** The four concrete bullet classes. */
  datatype Kind = Pellet | Bomb | Shrapnel | Missile

  /** Bombs and shrapnel carry a countdown; the others do not use it. */
  predicate Timed(kind: Kind) {
    kind == Bomb || kind == Shrapnel
  }

  /**
   * An entry of the effects list. The contents of effect.h are not part of
   * this model: an effect is recorded with the position and velocity it
   * was created from.
   */
  datatype Effect = Exhaust(pt: Position, v: Velocity) | Streek(pt: Position, v: Velocity)

  /**
   * The state of one bullet: the fields of Bullet (with the countdown of
   * Bomb and Shrapnel) and, field for field, of BulletStorage.
   */
  datatype BulletStorage = BulletStorage(
    pt: Position, v: Velocity, radius: real, dead: bool, value: int, timeToDie: int)

  /** The bounds test of Bullet::isOutOfBounds and BulletLogic::isOutOfBounds. */
  predicate Gone(s: BulletStorage, dims: Position) {
    OutOfBounds(s.pt, s.radius, dims)
  }

  /** The launch velocity for a firing angle and a speed. */
  function LaunchVelocity(trig: Trig, angle: real, speed: real): Velocity {
    Velocity(-speed * trig.cos(angle), speed * trig.sin(angle))
  }

  /**
   * The three assertions of the Bullet and BulletStorage constructors: the
   * start lies beyond x = 100, the bullet heads left (or not sideways) and
   * up (or not vertically).
   */
  predicate Launchable(trig: Trig, dims: Position, angle: real, speed: real) {
    var v := LaunchVelocity(trig, angle, speed);
    dims.x - 1.0 > 100.0 && v.dx <= 0.0 && v.dy >= 0.0
  }

  /** A freshly launched bullet: alive, at (W - 1, 1), countdown 0. */
  function Launched(trig: Trig, dims: Position, angle: real, speed: real, radius: real, value: int): BulletStorage {
    BulletStorage(Position(dims.x - 1.0, 1.0), LaunchVelocity(trig, angle, speed), radius, false, value, 0)
  }

  /**
   * The countdown of Bomb::move and Shrapnel::move: one less, and death on
   * the tick it reaches 0.
   */
  function Countdown(kind: Kind, s: BulletStorage): BulletStorage {
    if Timed(kind) then
      var t := s.timeToDie - 1;
      s.(timeToDie := t, dead := s.dead || t == 0)
    else s
  }

  /** Bullet::move and BulletLogic::move: inertia, then the bounds kill. */
  function Coast(dims: Position, s: BulletStorage): BulletStorage {
    var moved := s.(pt := s.pt.Add(s.v));
    moved.(dead := moved.dead || Gone(moved, dims))
  }

  /** One tick of a bullet of the given kind. */
  function Tick(kind: Kind, dims: Position, s: BulletStorage): (r: BulletStorage)
    ensures r.pt == s.pt.Add(s.v) && r.v == s.v && r.radius == s.radius && r.value == s.value
    ensures r.timeToDie == if Timed(kind) then s.timeToDie - 1 else s.timeToDie
    ensures r.dead <==> s.dead || (Timed(kind) && s.timeToDie == 1) || Gone(r, dims)
  {
    Coast(dims, Countdown(kind, s))
  }

  /** The trail a tick leaves: from where the bullet was, before it moved. */
  function Trail(kind: Kind, s: BulletStorage): seq<Effect> {
    match kind
    case Shrapnel => [Streek(s.pt, s.v)]
    case Missile => [Exhaust(s.pt, s.v)]
    case _ => []
  }

  /** n ticks in a row. */
  function Ticks(kind: Kind, dims: Position, s: BulletStorage, n: nat): BulletStorage {
    if n == 0 then s else Tick(kind, dims, Ticks(kind, dims, s, n - 1))
  }

  /** Where a bullet starting from s is after k ticks. */
  function Along(s: BulletStorage, k: nat): Position {
    Position(s.pt.x + k as real * s.v.dx, s.pt.y + k as real * s.v.dy)
  }

  /** Some tick from 1 to n found the bullet out of bounds. */
  predicate LeftBy(s: BulletStorage, dims: Position, n: nat) {
    exists k: nat :: 1 <= k <= n && OutOfBounds(Along(s, k), s.radius, dims)
  }

  /**
   * After n ticks the bullet has moved by n times its unchanged velocity,
   * and its countdown is n lower (for the timed kinds).
   */
  lemma {:induction false} TicksMotion(kind: Kind, dims: Position, s: BulletStorage, n: nat)
    ensures var r := Ticks(kind, dims, s, n);
      && r.pt == Along(s, n) && r.v == s.v && r.radius == s.radius && r.value == s.value
      && r.timeToDie == (if Timed(kind) then s.timeToDie - n else s.timeToDie)
  {
    if n == 0 {
      assert Along(s, 0) == s.pt;
    } else {
      TicksMotion(kind, dims, s, n - 1);
      StepAlong(s, n);
    }
  }

  /** One more tick moves one more velocity along. */
  lemma StepAlong(s: BulletStorage, n: nat)
    requires 1 <= n
    ensures Along(s, n) == Along(s, n - 1).Add(s.v)
  {
    var m := (n - 1) as real;
    assert n as real == m + 1.0;
    OneMore(m, s.v.dx);
    OneMore(m, s.v.dy);
  }

  /** One more step of d is d more. */
  lemma OneMore(m: real, d: real)
    ensures (m + 1.0) * d == m * d + d
  {
  }

  /**
   * After n ticks the bullet is dead exactly when it already was, its
   * countdown reached 0 on one of those ticks, or it was out of bounds
   * after one of them.
   */
  lemma {:induction false} TicksDead(kind: Kind, dims: Position, s: BulletStorage, n: nat)
    ensures Ticks(kind, dims, s, n).dead
        <==> s.dead || (Timed(kind) && 1 <= s.timeToDie <= n) || LeftBy(s, dims, n)
  {
    if n == 0 {
      assert !LeftBy(s, dims, 0);
    } else {
      TicksDead(kind, dims, s, n - 1);
      var before := Ticks(kind, dims, s, n - 1);
      TicksMotion(kind, dims, s, n);
      TicksMotion(kind, dims, s, n - 1);
      var gone := OutOfBounds(Along(s, n), s.radius, dims);
      assert Ticks(kind, dims, s, n).dead
         <==> before.dead || (Timed(kind) && before.timeToDie == 1) || gone;
      assert LeftBy(s, dims, n) <==> LeftBy(s, dims, n - 1) || gone by {
        if LeftBy(s, dims, n) && !gone {
          var k: nat :| 1 <= k <= n && OutOfBounds(Along(s, k), s.radius, dims);
          assert 1 <= k <= n - 1;
        }
        if LeftBy(s, dims, n - 1) {
          var k: nat :| 1 <= k <= n - 1 && OutOfBounds(Along(s, k), s.radius, dims);
          assert 1 <= k <= n;
        }
      }
    }
  }

  /** Death is for good: a dead bullet stays dead however long it moves. */
  lemma DeadStaysDead(kind: Kind, dims: Position, s: BulletStorage, n: nat)
    requires s.dead
    ensures Ticks(kind, dims, s, n).dead
  {
    TicksDead(kind, dims, s, n);
  }

  /**
   * A bomb's fuse of 60 kills it on the 60th tick at the latest, and a
   * timed bullet whose countdown starts at 0 or below is never killed by it.
   */
  lemma FuseExpiry(kind: Kind, dims: Position, s: BulletStorage, n: nat)
    requires Timed(kind)
    ensures s.timeToDie == 60 ==> Ticks(kind, dims, s, 60).dead
    ensures s.timeToDie == 60 && n < 60 ==>
      (Ticks(kind, dims, s, n).dead <==> s.dead || LeftBy(s, dims, n))
    ensures s.timeToDie <= 0 ==> (Ticks(kind, dims, s, n).dead <==> s.dead || LeftBy(s, dims, n))
  {
    TicksDead(kind, dims, s, 60);
    TicksDead(kind, dims, s, n);
  }

  /**
   * A bullet in flight. The class hierarchy Bullet / Pellet / Bomb /
   * Shrapnel / Missile becomes one class with a kind; the static screen
   * dimensions become a constant of each bullet.
   */
  class Bullet {
    const kind: Kind
    const dimensions: Position
    var pt: Position
    var v: Velocity
    var radius: real
    var dead: bool
    var value: int
    /** The countdown of Bomb and Shrapnel; 0 and unused for the others. */
    var timeToDie: int

    function State(): BulletStorage
      reads this
    {
      BulletStorage(pt, v, radius, dead, value, timeToDie)
    }

    /** Pellet(angle, speed = 15): Bullet(angle, speed, 1, 1). */
    constructor Pellet(dims: Position, trig: Trig, angle: real, speed: real := 15.0)
      requires Launchable(trig, dims, angle, speed)
      ensures kind == Kind.Pellet && dimensions == dims
      ensures State() == Launched(trig, dims, angle, speed, 1.0, 1)
    {
      kind, dimensions := Kind.Pellet, dims;
      pt, v := Position(dims.x - 1.0, 1.0), LaunchVelocity(trig, angle, speed);
      radius, dead, value, timeToDie := 1.0, false, 1, 0;
    }

    /** Bomb(angle, speed = 10): Bullet(angle, speed, 4, 4) with a fuse of 60. */
    constructor Bomb(dims: Position, trig: Trig, angle: real, speed: real := 10.0)
      requires Launchable(trig, dims, angle, speed)
      ensures kind == Kind.Bomb && dimensions == dims
      ensures State() == Launched(trig, dims, angle, speed, 4.0, 4).(timeToDie := 60)
    {
      kind, dimensions := Kind.Bomb, dims;
      pt, v := Position(dims.x - 1.0, 1.0), LaunchVelocity(trig, angle, speed);
      radius, dead, value, timeToDie := 4.0, false, 4, 60;
    }

    /** Missile(angle, speed = 10): Bullet(angle, speed, 1, 3). */
    constructor Missile(dims: Position, trig: Trig, angle: real, speed: real := 10.0)
      requires Launchable(trig, dims, angle, speed)
      ensures kind == Kind.Missile && dimensions == dims
      ensures State() == Launched(trig, dims, angle, speed, 1.0, 3)
    {
      kind, dimensions := Kind.Missile, dims;
      pt, v := Position(dims.x - 1.0, 1.0), LaunchVelocity(trig, angle, speed);
      radius, dead, value, timeToDie := 1.0, false, 3, 0;
    }

    /**
     * Shrapnel(bomb): the default Bullet() first (angle 0, speed 30, so its
     * assertions must hold there), then a countdown of random(5, 15), a
     * velocity set from random(0, 6.2) and random(10, 15), the bomb's
     * position, value 0 and radius 3.
     */
    constructor Shrapnel(bomb: Bullet, rng: Rng, trig: Trig)
      requires Launchable(trig, bomb.dimensions, 0.0, 30.0)
      modifies rng`calls
      ensures kind == Kind.Shrapnel && dimensions == bomb.dimensions
      ensures State() == Fragment(bomb.pt, trig, rng.draws, old(rng.calls))
      ensures rng.calls == old(rng.calls) + 3
    {
      kind, dimensions := Kind.Shrapnel, bomb.dimensions;
      var t, angle, speed := FragmentDraws(rng);
      timeToDie := t;
      v := trig.polar(angle, speed);
      pt := bomb.pt;
      value := 0;
      radius := 3.0;
      dead := false;
    }

    method SetValue(newValue: int)
      modifies this`value
      ensures value == newValue
    {
      value := newValue;
    }

    /** kill: dead and nothing else. */
    method Kill()
      modifies this`dead
      ensures dead
    {
      dead := true;
    }

    predicate IsOutOfBounds()
      reads this
    {
      Gone(State(), dimensions)
    }

    /** Bullet::move: inertia, then the bounds kill. */
    method BaseMove()
      modifies this`pt, this`dead
      ensures State() == Coast(dimensions, old(State()))
    {
      pt := pt.Add(v);
      if IsOutOfBounds() {
        Kill();
      }
    }

    /**
     * The move of each kind: Bomb counts down first, Shrapnel counts down
     * and leaves a Streek, Missile leaves an Exhaust; all then coast.
     */
    method Move(effects: seq<Effect>) returns (effects': seq<Effect>)
      modifies this`pt, this`dead, this`timeToDie
      ensures State() == Tick(kind, dimensions, old(State()))
      ensures effects' == effects + Trail(kind, old(State()))
    {
      effects' := effects;
      match kind {
        case Pellet =>
        case Bomb =>
          timeToDie := timeToDie - 1;
          if timeToDie == 0 {
            Kill();
          }
        case Missile =>
          effects' := effects' + [Exhaust(pt, v)];
        case Shrapnel =>
          timeToDie := timeToDie - 1;
          if timeToDie == 0 {
            Kill();
          }
          effects' := effects' + [Streek(pt, v)];
      }
      BaseMove();
    }

    /**
     * input: only a missile reacts, turning by +0.04 for up and then by
     * -0.04 for down.
     */
    method Input(isUp: bool, isDown: bool, isB: bool, trig: Trig)
      modifies this`v
      ensures v == if kind == Kind.Missile then Steer(old(v), isUp, isDown, trig) else old(v)
    {
      if kind == Kind.Missile {
        if isUp {
          v := trig.turn(v, 0.04);
        }
        if isDown {
          v := trig.turn(v, -0.04);
        }
      }
    }

    /** One `new Shrapnel(*this)` of Bomb::death. */
    method Throw(rng: Rng, trig: Trig) returns (shrapnel: Bullet)
      requires Launchable(trig, dimensions, 0.0, 30.0)
      modifies rng`calls
      ensures fresh(shrapnel) && shrapnel.kind == Kind.Shrapnel && shrapnel.dimensions == dimensions
      ensures shrapnel.State() == Fragment(pt, trig, rng.draws, old(rng.calls))
      ensures rng.calls == old(rng.calls) + 3
    {
      shrapnel := new Bullet.Shrapnel(this, rng, trig);
    }

    /**
     * One pass of the loop of Bomb::death: with the shrapnel thrown so far
     * the first of a volley begun at call number start, the next shrapnel
     * extends that volley by one.
     */
    method ThrowNext(thrown: seq<Bullet>, rng: Rng, trig: Trig, ghost start: nat) returns (shrapnel: Bullet)
      requires Launchable(trig, dimensions, 0.0, 30.0)
      requires States(thrown) == Volley(pt, trig, rng.draws, start, |thrown|)
      requires rng.calls == start + 3 * |thrown|
      modifies rng`calls
      ensures fresh(shrapnel) && shrapnel.kind == Kind.Shrapnel && shrapnel.dimensions == dimensions
      ensures States(thrown + [shrapnel]) == Volley(pt, trig, rng.draws, start, |thrown| + 1)
      ensures rng.calls == old(rng.calls) + 3
    {
      ghost var before := rng.calls;
      shrapnel := Throw(rng, trig);
      VolleyNext(pt, trig, rng.draws, start, |thrown|, before, shrapnel.State());
      StatesAppend(thrown, shrapnel);
    }

    /**
     * death: a bomb appends 20 fresh shrapnel to the list, each from its own
     * three draws; the bomb itself is not killed here. The other kinds do
     * nothing.
     */
    method Death(bullets: seq<Bullet>, rng: Rng, trig: Trig) returns (bullets': seq<Bullet>)
      requires kind == Kind.Bomb ==> Launchable(trig, dimensions, 0.0, 30.0)
      modifies rng`calls
      ensures kind != Kind.Bomb ==> bullets' == bullets && rng.calls == old(rng.calls)
      ensures kind == Kind.Bomb ==>
        && |bullets'| == |bullets| + SHRAPNEL_COUNT
        && bullets'[..|bullets|] == bullets
        && rng.calls == old(rng.calls) + 3 * SHRAPNEL_COUNT
        && States(bullets'[|bullets|..]) == Volley(pt, trig, rng.draws, old(rng.calls), SHRAPNEL_COUNT)
        && Thrown(bullets'[|bullets|..], dimensions) && forall b :: b in bullets'[|bullets|..] ==> fresh(b)
    {
      bullets' := bullets;
      if kind == Kind.Bomb {
        var thrown: seq<Bullet> := [];
        for i := 0 to SHRAPNEL_COUNT
          invariant |thrown| == i && rng.calls == old(rng.calls) + 3 * i
          invariant States(thrown) == Volley(pt, trig, rng.draws, old(rng.calls), i)
          invariant Thrown(thrown, dimensions) && forall b :: b in thrown ==> fresh(b)
        {
          var shrapnel := ThrowNext(thrown, rng, trig, old(rng.calls));
          thrown := thrown + [shrapnel];
        }
        bullets' := bullets + thrown;
        assert bullets'[..|bullets|] == bullets && bullets'[|bullets|..] == thrown;
      }
    }
  }

  /** Every bullet of the list is shrapnel of a bomb in a field of the given size. */
  predicate Thrown(bullets: seq<Bullet>, dims: Position)
    reads bullets
  {
    forall b :: b in bullets ==> b.kind == Kind.Shrapnel && b.dimensions == dims
  }

  /** The states of a list of bullets, in list order. */
  function States(bullets: seq<Bullet>): (r: seq<BulletStorage>)
    reads bullets
    ensures |r| == |bullets|
  {
    if bullets == [] then []
    else States(bullets[..|bullets| - 1]) + [bullets[|bullets| - 1].State()]
  }

  /** Appending a bullet appends its state. */
  lemma StatesAppend(bullets: seq<Bullet>, b: Bullet)
    ensures States(bullets + [b]) == States(bullets) + [b.State()]
  {
    assert (bullets + [b])[..|bullets|] == bullets;
  }

  /**
   * The states of n shrapnel thrown one after another from at, the i-th
   * from the three rand() results at calls + 3i.
   */
  function Volley(at: Position, trig: Trig, draws: Draws, calls: nat, n: nat): (r: seq<BulletStorage>)
    ensures |r| == n
  {
    if n == 0 then []
    else Volley(at, trig, draws, calls, n - 1) + [Fragment(at, trig, draws, calls + 3 * (n - 1))]
  }

  /** One more shrapnel, from the three draws after the first n throws. */
  lemma VolleyNext(at: Position, trig: Trig, draws: Draws, calls: nat, n: nat, next: nat, s: BulletStorage)
    requires next == calls + 3 * n && s == Fragment(at, trig, draws, next)
    ensures Volley(at, trig, draws, calls, n + 1) == Volley(at, trig, draws, calls, n) + [s]
  {
  }

  /**
   * The i-th shrapnel of a volley comes from the three draws at calls + 3i;
   * with Fragment's contract, it sits where the bomb was, is alive, worth
   * nothing, of radius 3, with a countdown in [5, 14] and a velocity set
   * from an angle in [0, 6.2] and a speed in [10, 15].
   */
  lemma {:induction false} VolleyShape(at: Position, trig: Trig, draws: Draws, calls: nat, n: nat)
    ensures forall i :: 0 <= i < n ==> Volley(at, trig, draws, calls, n)[i] == Fragment(at, trig, draws, calls + 3 * i)
  {
    if n > 0 {
      VolleyShape(at, trig, draws, calls, n - 1);
      var prefix := Volley(at, trig, draws, calls, n - 1);
      assert Volley(at, trig, draws, calls, n) == prefix + [Fragment(at, trig, draws, calls + 3 * (n - 1))];
    }
  }

  /** Bomb::death throws this many shrapnel. */
  const SHRAPNEL_COUNT: nat := 20

  /**
   * Missile::input on the velocity alone: both turns apply when both keys
   * are down, up first.
   */
  function Steer(v: Velocity, isUp: bool, isDown: bool, trig: Trig): (r: Velocity)
    ensures !isUp && !isDown ==> r == v
    ensures isUp && !isDown ==> r == trig.turn(v, 0.04)
    ensures !isUp && isDown ==> r == trig.turn(v, -0.04)
    ensures isUp && isDown ==> r == trig.turn(trig.turn(v, 0.04), -0.04)
  {
    var up := if isUp then trig.turn(v, 0.04) else v;
    if isDown then trig.turn(up, -0.04) else up
  }

  /**
   * The state of a Shrapnel built from the rand() results at calls (the
   * countdown), calls + 1 (the angle) and calls + 2 (the speed).
   */
  function Fragment(at: Position, trig: Trig, draws: Draws, calls: nat): (s: BulletStorage)
    ensures s.pt == at && !s.dead && s.value == 0 && s.radius == 3.0
    ensures 5 <= s.timeToDie <= 14
    ensures exists angle: real, speed: real ::
      0.0 <= angle <= 6.2 && 10.0 <= speed <= 15.0 && s.v == trig.polar(angle, speed)
  {
    var angle := RealFromDraw(draws(calls + 1), 0.0, 6.2);
    var speed := RealFromDraw(draws(calls + 2), 10.0, 15.0);
    BulletStorage(at, trig.polar(angle, speed), 3.0, false, 0, IntFromDraw(draws(calls), 5, 15))
  }

  /** The three draws of the Shrapnel constructor, in statement order. */
  method FragmentDraws(rng: Rng) returns (timeToDie: int, angle: real, speed: real)
    modifies rng`calls
    ensures timeToDie == IntFromDraw(rng.draws(old(rng.calls)), 5, 15)
    ensures angle == RealFromDraw(rng.draws(old(rng.calls) + 1), 0.0, 6.2)
    ensures speed == RealFromDraw(rng.draws(old(rng.calls) + 2), 10.0, 15.0)
    ensures rng.calls == old(rng.calls) + 3
  {
    timeToDie := rng.RandomInt(5, 15);
    angle := rng.RandomReal(0.0, 6.2);
    speed := rng.RandomReal(10.0, 15.0);
  }
}
