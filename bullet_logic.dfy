/**
 * The separation-of-concerns copy of the bullets (the BulletStorage,
 * BulletLogic and *Logic classes of bullet.h and
 * Lab08-SeparationOfConcerns/Skeet/bullet.cpp): the fields move into a
 * BulletStorage value, the behaviour into a BulletLogic that owns one.
 *
 * The per-tick behaviour is the Tick of the Bullets module; what differs
 * from the Bullet hierarchy is construction and a bomb's death:
 * BulletStorage's constructor is the launcher's, with its assertions, and
 * it is used for the shrapnel too. An assertion that fails aborts the
 * program; the model returns None there.
 */
module SeparatedBullets {
  import opened Geometry
  import opened Random
  import opened Bullets

  /**
   * BulletStorage(angle, speed, radius, value): a launched bullet with a
   * countdown of 0, or None when one of its assertions fails.
   */
  function NewStorage(trig: Trig, dims: Position, angle: real, speed: real, radius: real, value: int)
    : (r: Option<BulletStorage>)
    ensures r.Some? <==> Launchable(trig, dims, angle, speed)
    ensures r.Some? ==>
      && r.value.pt == Position(dims.x - 1.0, 1.0) && r.value.v == LaunchVelocity(trig, angle, speed)
      && r.value.radius == radius && r.value.value == value && !r.value.dead && r.value.timeToDie == 0
  {
    if Launchable(trig, dims, angle, speed) then Some(Launched(trig, dims, angle, speed, radius, value)) else None
  }

  /** The default arguments one *Logic::createBulletStorage supplies. */
  datatype Defaults = Defaults(speed: real, radius: real, value: int)

  /**
   * The defaults of PelletLogic, BombLogic and MissileLogic; ShrapnelLogic
   * has no override, and the base version has no defaults.
   */
  function DefaultsOf(kind: Kind): (d: Option<Defaults>)
    ensures d.Some? <==> kind != Kind.Shrapnel
    ensures kind == Kind.Pellet ==> d == Some(Defaults(15.0, 1.0, 1))
    ensures kind == Kind.Bomb ==> d == Some(Defaults(10.0, 4.0, 4))
    ensures kind == Kind.Missile ==> d == Some(Defaults(10.0, 1.0, 3))
  {
    match kind
    case Pellet => Some(Defaults(15.0, 1.0, 1))
    case Bomb => Some(Defaults(10.0, 4.0, 4))
    case Missile => Some(Defaults(10.0, 1.0, 3))
    case Shrapnel => None
  }

  /**
   * createBulletStorage(angle) of the logic of one kind, with its defaults,
   * as written: BombLogic returns before its setTimeToDie(60), so every
   * storage starts with a countdown of 0.
   */
  function CreateBulletStorage(kind: Kind, trig: Trig, dims: Position, angle: real): (r: Option<BulletStorage>)
    requires kind != Kind.Shrapnel
    ensures r.Some? <==> Launchable(trig, dims, angle, DefaultsOf(kind).value.speed)
    ensures r.Some? ==>
      && r.value.pt == Position(dims.x - 1.0, 1.0)
      && r.value.v == LaunchVelocity(trig, angle, DefaultsOf(kind).value.speed)
      && r.value.radius == DefaultsOf(kind).value.radius && r.value.value == DefaultsOf(kind).value.value
      && !r.value.dead && r.value.timeToDie == 0
  {
    var d := DefaultsOf(kind).value;
    NewStorage(trig, dims, angle, d.speed, d.radius, d.value)
  }

  /** createBulletStorage with the bomb's fuse of 60 set on the storage it returns. */
  function CreateBulletStorageFixed(kind: Kind, trig: Trig, dims: Position, angle: real): (r: Option<BulletStorage>)
    requires kind != Kind.Shrapnel
    ensures r.Some? <==> CreateBulletStorage(kind, trig, dims, angle).Some?
    ensures r.Some? ==>
      r.value == CreateBulletStorage(kind, trig, dims, angle).value.(timeToDie := if kind == Kind.Bomb then 60 else 0)
  {
    var s := CreateBulletStorage(kind, trig, dims, angle);
    if kind == Kind.Bomb && s.Some? then Some(s.value.(timeToDie := 60)) else s
  }

  /**
   * Pellet and missile storages are the states the Pellet and Missile
   * constructors of the Bullet hierarchy set up; a bomb storage is the
   * Bomb's state but for its countdown, which is 0 instead of 60.
   */
  lemma CreateAgreesWithBullet(trig: Trig, dims: Position, angle: real)
    requires Launchable(trig, dims, angle, 15.0) && Launchable(trig, dims, angle, 10.0)
    ensures CreateBulletStorage(Kind.Pellet, trig, dims, angle) == Some(Launched(trig, dims, angle, 15.0, 1.0, 1))
    ensures CreateBulletStorage(Kind.Missile, trig, dims, angle) == Some(Launched(trig, dims, angle, 10.0, 1.0, 3))
    ensures CreateBulletStorage(Kind.Bomb, trig, dims, angle) == Some(Launched(trig, dims, angle, 10.0, 4.0, 4))
    ensures Launched(trig, dims, angle, 10.0, 4.0, 4).timeToDie == 0
  {
  }

  /**
   * As written, a bomb storage's fuse never fires: it dies only by leaving
   * the field, however many ticks it flies.
   */
  lemma BombStorageNeverExpires(trig: Trig, dims: Position, angle: real, n: nat)
    requires Launchable(trig, dims, angle, 10.0)
    ensures var s := CreateBulletStorage(Kind.Bomb, trig, dims, angle).value;
      Ticks(Kind.Bomb, dims, s, n).dead <==> LeftBy(s, dims, n)
  {
    FuseExpiry(Kind.Bomb, dims, CreateBulletStorage(Kind.Bomb, trig, dims, angle).value, n);
  }

  /**
   * With the fuse set, a bomb storage is exactly the state of a Bomb of the
   * Bullet hierarchy, and it is dead after 60 ticks at the latest.
   */
  lemma FixedBombStorage(trig: Trig, dims: Position, angle: real)
    requires Launchable(trig, dims, angle, 10.0)
    ensures CreateBulletStorageFixed(Kind.Bomb, trig, dims, angle)
         == Some(Launched(trig, dims, angle, 10.0, 4.0, 4).(timeToDie := 60))
    ensures Ticks(Kind.Bomb, dims, CreateBulletStorageFixed(Kind.Bomb, trig, dims, angle).value, 60).dead
  {
    FuseExpiry(Kind.Bomb, dims, CreateBulletStorageFixed(Kind.Bomb, trig, dims, angle).value, 60);
  }

  /**
   * One piece of shrapnel as BombLogic::death and
   * ShrapnelLogic::createBulletStorageForShrapnel build it: a BulletStorage
   * from random(0, 6.2) and random(10, 15), radius 3 and value 0, moved to
   * the bomb's position; None when the constructor's assertions fail.
   */
  function Piece(at: Position, trig: Trig, dims: Position, draws: Draws, calls: nat): (r: Option<BulletStorage>)
    ensures r.Some? <==>
      Launchable(trig, dims, RealFromDraw(draws(calls), 0.0, 6.2), RealFromDraw(draws(calls + 1), 10.0, 15.0))
    ensures r.Some? ==> r.value == FixedPiece(at, trig, draws, calls)
  {
    var angle := RealFromDraw(draws(calls), 0.0, 6.2);
    var speed := RealFromDraw(draws(calls + 1), 10.0, 15.0);
    var s := NewStorage(trig, dims, angle, speed, 3.0, 0);
    if s.Some? then Some(s.value.(pt := at)) else None
  }

  /**
   * The piece with the launcher's assertions left out: at the bomb's
   * position, alive, radius 3, value 0, countdown 0, and a velocity from an
   * angle in [0, 6.2] and a speed in [10, 15].
   */
  function FixedPiece(at: Position, trig: Trig, draws: Draws, calls: nat): (s: BulletStorage)
    ensures s.pt == at && !s.dead && s.radius == 3.0 && s.value == 0 && s.timeToDie == 0
    ensures exists angle: real, speed: real ::
      0.0 <= angle <= 6.2 && 10.0 <= speed <= 15.0 && s.v == LaunchVelocity(trig, angle, speed)
  {
    var angle := RealFromDraw(draws(calls), 0.0, 6.2);
    var speed := RealFromDraw(draws(calls + 1), 10.0, 15.0);
    BulletStorage(at, LaunchVelocity(trig, angle, speed), 3.0, false, 0, 0)
  }

  /**
   * A piece's countdown is 0, so under ShrapnelLogic::move its fuse never
   * fires: it dies only by leaving the field.
   */
  lemma PieceNeverExpires(at: Position, trig: Trig, dims: Position, draws: Draws, calls: nat, n: nat)
    ensures var s := FixedPiece(at, trig, draws, calls);
      Ticks(Kind.Shrapnel, dims, s, n).dead <==> LeftBy(s, dims, n)
  {
    FuseExpiry(Kind.Shrapnel, dims, FixedPiece(at, trig, draws, calls), n);
  }

  /**
   * The n pieces of BombLogic::death, the i-th from the two rand() results
   * at calls + 2i; None as soon as one piece's assertions fail.
   */
  function Burst(at: Position, trig: Trig, dims: Position, draws: Draws, calls: nat, n: nat)
    : (r: Option<seq<BulletStorage>>)
    ensures r.Some? ==> |r.value| == n
  {
    if n == 0 then Some([])
    else
      var before := Burst(at, trig, dims, draws, calls, n - 1);
      var piece := Piece(at, trig, dims, draws, calls + 2 * (n - 1));
      if before.Some? && piece.Some? then Some(before.value + [piece.value]) else None
  }

  /** The n pieces with the launcher's assertions left out. */
  function FixedBurst(at: Position, trig: Trig, draws: Draws, calls: nat, n: nat): (r: seq<BulletStorage>)
    ensures |r| == n
  {
    if n == 0 then [] else FixedBurst(at, trig, draws, calls, n - 1) + [FixedPiece(at, trig, draws, calls + 2 * (n - 1))]
  }

  /**
   * A burst that does not abort is the fixed burst: every piece sits at the
   * bomb's position, alive, worth nothing, of radius 3.
   */
  lemma {:induction false} BurstIsFixed(at: Position, trig: Trig, dims: Position, draws: Draws, calls: nat, n: nat)
    ensures Burst(at, trig, dims, draws, calls, n).Some? ==>
      Burst(at, trig, dims, draws, calls, n).value == FixedBurst(at, trig, draws, calls, n)
  {
    if n > 0 {
      BurstIsFixed(at, trig, dims, draws, calls, n - 1);
    }
  }

  /** Every piece of a fixed burst is the fixed piece from its own two draws. */
  lemma {:induction false} FixedBurstPieces(at: Position, trig: Trig, draws: Draws, calls: nat, n: nat)
    ensures forall i :: 0 <= i < n ==> FixedBurst(at, trig, draws, calls, n)[i] == FixedPiece(at, trig, draws, calls + 2 * i)
  {
    if n > 0 {
      FixedBurstPieces(at, trig, draws, calls, n - 1);
      var prefix := FixedBurst(at, trig, draws, calls, n - 1);
      assert FixedBurst(at, trig, draws, calls, n) == prefix + [FixedPiece(at, trig, draws, calls + 2 * (n - 1))];
    }
  }

  /**
   * A result of RAND_MAX for the first angle gives the angle 6.2, whose
   * sine is negative: the velocity points down, the constructor's
   * assertion fails and the whole burst aborts.
   */
  lemma BurstAbortsOnLastAngle(at: Position, trig: Trig, dims: Position, draws: Draws, calls: nat, n: nat)
    requires trig.sin(6.2) < 0.0 && draws(calls) == RAND_MAX && 1 <= n
    ensures Burst(at, trig, dims, draws, calls, n) == None
  {
    var speed := RealFromDraw(draws(calls + 1), 10.0, 15.0);
    assert RealFromDraw(draws(calls), 0.0, 6.2) == 6.2;
    assert speed * trig.sin(6.2) < 0.0 by {
      NegativeProduct(speed, trig.sin(6.2));
    }
    assert Piece(at, trig, dims, draws, calls) == None;
    FirstPieceAborts(at, trig, dims, draws, calls, n);
  }

  /**
   * A piece survives the constructor's assertions exactly when its angle
   * lies in the first quadrant: cosine and sine both non-negative, and
   * the field wider than 101. Any angle in (pi/2, 6.2] aborts it.
   */
  lemma PieceNeedsFirstQuadrant(at: Position, trig: Trig, dims: Position, draws: Draws, calls: nat)
    ensures var angle := RealFromDraw(draws(calls), 0.0, 6.2);
      Piece(at, trig, dims, draws, calls).Some?
      <==> dims.x - 1.0 > 100.0 && trig.cos(angle) >= 0.0 && trig.sin(angle) >= 0.0
  {
    var angle := RealFromDraw(draws(calls), 0.0, 6.2);
    var speed := RealFromDraw(draws(calls + 1), 10.0, 15.0);
    ScaledSign(speed, trig.cos(angle));
    ScaledSign(speed, trig.sin(angle));
  }

  /** Scaling by a positive factor keeps the sign. */
  lemma ScaledSign(a: real, b: real)
    requires 0.0 < a
    ensures a * b >= 0.0 <==> b >= 0.0
    ensures -a * b <= 0.0 <==> b >= 0.0
  {
    if b < 0.0 {
      NegativeProduct(a, b);
    }
  }

  /** A positive times a negative is negative. */
  lemma NegativeProduct(a: real, b: real)
    requires 0.0 < a && b < 0.0
    ensures a * b < 0.0
  {
  }

  /** When the first piece aborts, so does every longer burst. */
  lemma {:induction false} FirstPieceAborts(at: Position, trig: Trig, dims: Position, draws: Draws, calls: nat, n: nat)
    requires Piece(at, trig, dims, draws, calls) == None && 1 <= n
    ensures Burst(at, trig, dims, draws, calls, n) == None
  {
    if n > 1 {
      FirstPieceAborts(at, trig, dims, draws, calls, n - 1);
    }
  }

  /**
   * ShrapnelLogic::createBulletStorageForShrapnel: a piece drawn from the
   * next two rand() results, angle first, placed where the bomb is.
   */
  method CreateBulletStorageForShrapnel(bombStorage: BulletStorage, rng: Rng, trig: Trig, dims: Position)
    returns (r: Option<BulletStorage>)
    modifies rng`calls
    ensures r == Piece(bombStorage.pt, trig, dims, rng.draws, old(rng.calls))
    ensures rng.calls == old(rng.calls) + 2
  {
    var angle := rng.RandomReal(0.0, 6.2);
    var speed := rng.RandomReal(10.0, 15.0);
    var bullet := NewStorage(trig, dims, angle, speed, 3.0, 0);
    if bullet.Some? {
      r := Some(bullet.value.(pt := bombStorage.pt));
    } else {
      r := None;
    }
  }

  /** The bullets list after a bomb's death: the old list and then the burst. */
  function AfterBurst(bullets: seq<BulletStorage>, burst: Option<seq<BulletStorage>>): (r: Option<seq<BulletStorage>>)
    ensures r.Some? <==> burst.Some?
    ensures r.Some? ==> |r.value| == |bullets| + |burst.value|
    ensures r.Some? ==> r.value[..|bullets|] == bullets && r.value[|bullets|..] == burst.value
  {
    if burst.Some? then Some(bullets + burst.value) else None
  }

  /** A BulletLogic of one kind, owning its storage. */
  class BulletLogic {
    const kind: Kind
    /** BulletStorage's static screen dimensions. */
    const dimensions: Position
    var storage: BulletStorage

    constructor (kind: Kind, dims: Position, storage: BulletStorage)
      ensures this.kind == kind && dimensions == dims && this.storage == storage
    {
      this.kind, dimensions := kind, dims;
      this.storage := storage;
    }

    /** kill: the storage is dead and nothing else changes. */
    method Kill()
      modifies this`storage
      ensures storage == old(storage).(dead := true)
    {
      storage := storage.(dead := true);
    }

    method SetValue(newValue: int)
      modifies this`storage
      ensures storage == old(storage).(value := newValue)
    {
      storage := storage.(value := newValue);
    }

    /** isOutOfBounds: the storage has left the field widened by its radius. */
    predicate IsOutOfBounds()
      reads this
      ensures IsOutOfBounds() <==> !InField(storage.pt, storage.radius, dimensions)
    {
      Gone(storage, dimensions)
    }

    /** BulletLogic::move: inertia, then the bounds kill. */
    method BaseMove()
      modifies this`storage
      ensures storage == Coast(dimensions, old(storage))
    {
      var pt := storage.pt;
      pt := pt.Add(storage.v);
      storage := storage.(pt := pt);
      if IsOutOfBounds() {
        Kill();
      }
    }

    /** The countdown of BombLogic::move and ShrapnelLogic::move. */
    method CountDown()
      modifies this`storage
      ensures storage == Countdown(Kind.Bomb, old(storage))
    {
      storage := storage.(timeToDie := storage.timeToDie - 1);
      if storage.timeToDie == 0 {
        Kill();
      }
    }

    /**
     * move of the logic of this kind: the countdown first for bombs and
     * shrapnel, the trail (from where the bullet was) for shrapnel and
     * missiles, then BulletLogic::move. This is the Tick of the Bullet
     * hierarchy.
     */
    method Move(effects: seq<Effect>) returns (effects': seq<Effect>)
      modifies this`storage
      ensures storage == Tick(kind, dimensions, old(storage))
      ensures effects' == effects + Trail(kind, old(storage))
    {
      effects' := effects;
      match kind {
        case Pellet =>
        case Bomb =>
          CountDown();
        case Shrapnel =>
          CountDown();
          effects' := effects' + [Streek(storage.pt, storage.v)];
        case Missile =>
          effects' := effects' + [Exhaust(storage.pt, storage.v)];
      }
      BaseMove();
    }

    /**
     * death. BulletLogic::death only marks the storage dead. BombLogic::death
     * leaves the bomb alone and appends 20 pieces of shrapnel, each from
     * two rand() results; it aborts (None) on the first piece whose
     * constructor assertions fail. The pieces it does append are those of
     * the fixed burst.
     */
    method Death(bullets: seq<BulletStorage>, rng: Rng, trig: Trig) returns (r: Option<seq<BulletStorage>>)
      modifies this`storage, rng`calls
      ensures kind != Kind.Bomb ==>
        r == Some(bullets) && storage == old(storage).(dead := true) && rng.calls == old(rng.calls)
      ensures kind == Kind.Bomb ==>
        && storage == old(storage)
        && r == AfterBurst(bullets, Burst(storage.pt, trig, dimensions, rng.draws, old(rng.calls), SHRAPNEL_COUNT))
        && (r.Some? ==> rng.calls == old(rng.calls) + 2 * SHRAPNEL_COUNT)
        && (r.Some? ==> r.value[|bullets|..] == FixedBurst(storage.pt, trig, rng.draws, old(rng.calls), SHRAPNEL_COUNT))
    {
      if kind != Kind.Bomb {
        Kill();
        return Some(bullets);
      }
      r := ThrowBurst(storage, rng, trig, dimensions);
      BurstIsFixed(storage.pt, trig, dimensions, rng.draws, old(rng.calls), SHRAPNEL_COUNT);
      r := AfterBurst(bullets, r);
    }
  }

  /**
   * The loop of BombLogic::death: 20 pieces, one after another, stopping
   * at the first whose constructor assertions fail.
   */
  method ThrowBurst(bombStorage: BulletStorage, rng: Rng, trig: Trig, dims: Position) returns (r: Option<seq<BulletStorage>>)
    modifies rng`calls
    ensures r == Burst(bombStorage.pt, trig, dims, rng.draws, old(rng.calls), SHRAPNEL_COUNT)
    ensures r.Some? ==> rng.calls == old(rng.calls) + 2 * SHRAPNEL_COUNT
  {
    var pieces: seq<BulletStorage> := [];
    for i := 0 to SHRAPNEL_COUNT
      invariant rng.calls == old(rng.calls) + 2 * i
      invariant Burst(bombStorage.pt, trig, dims, rng.draws, old(rng.calls), i) == Some(pieces)
    {
      ghost var next := rng.calls;
      var bullet := CreateBulletStorageForShrapnel(bombStorage, rng, trig, dims);
      BurstNext(bombStorage.pt, trig, dims, rng.draws, old(rng.calls), i, next);
      if bullet.None? {
        BurstStaysAborted(bombStorage.pt, trig, dims, rng.draws, old(rng.calls), i + 1, SHRAPNEL_COUNT);
        return None;
      }
      pieces := pieces + [bullet.value];
    }
    r := Some(pieces);
  }

  /** One more piece, from the two draws after the first n pieces. */
  lemma BurstNext(at: Position, trig: Trig, dims: Position, draws: Draws, calls: nat, n: nat, next: nat)
    requires next == calls + 2 * n
    ensures var before := Burst(at, trig, dims, draws, calls, n);
      var piece := Piece(at, trig, dims, draws, next);
      Burst(at, trig, dims, draws, calls, n + 1)
        == if before.Some? && piece.Some? then Some(before.value + [piece.value]) else None
  {
  }

  /** Once a burst has aborted it stays aborted, however many more pieces follow. */
  lemma {:induction false} BurstStaysAborted(at: Position, trig: Trig, dims: Position, draws: Draws, calls: nat, m: nat, n: nat)
    requires m <= n && Burst(at, trig, dims, draws, calls, m) == None
    ensures Burst(at, trig, dims, draws, calls, n) == None
    decreases n - m
  {
    if m < n {
      BurstStaysAborted(at, trig, dims, draws, calls, m + 1, n);
    }
  }

  /**
   * MissileInterface::input as written: the turns are applied to the copy
   * getVelocity returns, so the storage is what it was.
   */
  function MissileInput(s: BulletStorage, isUp: bool, isDown: bool, trig: Trig): (r: BulletStorage)
    ensures r == s
  {
    // The turned copy is discarded; Steer is what it would have been.
    s
  }

  /** MissileInterface::input with the turned velocity written back, as Missile::input does. */
  function MissileInputFixed(s: BulletStorage, isUp: bool, isDown: bool, trig: Trig): (r: BulletStorage)
    ensures r.v == Steer(s.v, isUp, isDown, trig)
    ensures r.pt == s.pt && r.radius == s.radius && r.dead == s.dead && r.value == s.value && r.timeToDie == s.timeToDie
  {
    s.(v := Steer(s.v, isUp, isDown, trig))
  }

  /**
   * The lost turn: whenever the up turn changes the velocity, the missile
   * steered as written keeps flying straight, unlike a Missile of the
   * Bullet hierarchy; fixed, it turns as that Missile does.
   */
  lemma MissileTurnLost(s: BulletStorage, trig: Trig)
    requires trig.turn(s.v, 0.04) != s.v
    ensures MissileInput(s, true, false, trig).v != Steer(s.v, true, false, trig)
    ensures MissileInputFixed(s, true, false, trig).v == Steer(s.v, true, false, trig)
  {
  }
}
