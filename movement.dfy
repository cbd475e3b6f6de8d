/**
 * The movement rules a decorator bird is built from (ApplyMovement.h):
 * Inertia, Drag, AntiGravity, Gravity and Turn. Each rule updates the
 * bird's position and velocity in place; Turn also draws from rand().
 * Affect is the meaning of one rule, Run the meaning of a list of rules
 * applied in order, and AffectMovement the in-place update itself.
 */
module Movement {
  import opened Geometry
  import opened Random

  /** One ApplyMovement subclass. */
  datatype Rule = Inertia | Drag | AntiGravity | Gravity | Turn

  /** The position and velocity a rule works on. */
  datatype Motion = Motion(pt: Position, v: Velocity)

  /** The drag factor of ApplyDrag. */
  const DRAG: real := 0.990
  /** The lift ApplyAntiGravity adds to dy each tick. */
  const LIFT: real := 0.05
  /** The pull ApplyGravity takes from dy each tick. */
  const PULL: real := 0.07
  /** ApplyTurn turns only when randomInt(0, TURN_ODDS) is 0. */
  const TURN_ODDS: int := 15
  /** The largest offset ApplyTurn adds to each velocity component. */
  const TURN_KICK: real := 1.5

  /**
   * ApplyTurn on the velocity alone: randomInt(0, 15) is drawn, and only
   * when it is 0 are dy and then dx kicked by randomFloat(-1.5, 1.5). The
   * result is the new velocity and the new call number.
   */
  function Kick(v: Velocity, draws: Draws, calls: nat): (r: (Velocity, nat))
    ensures var turns := IntFromDraw(draws(calls), 0, TURN_ODDS) == 0;
      && r.1 == calls + (if turns then 3 else 1)
      && (!turns ==> r.0 == v)
      && -TURN_KICK <= r.0.dx - v.dx <= TURN_KICK
      && -TURN_KICK <= r.0.dy - v.dy <= TURN_KICK
  {
    if IntFromDraw(draws(calls), 0, TURN_ODDS) == 0 then
      var ddy := RealFromDraw(draws(calls + 1), -TURN_KICK, TURN_KICK);
      var ddx := RealFromDraw(draws(calls + 2), -TURN_KICK, TURN_KICK);
      (v.AddDy(ddy).AddDx(ddx), calls + 3)
    else
      (v, calls + 1)
  }

  /** The draws a turning Kick adds: dy from the second, dx from the third. */
  lemma KickTurns(v: Velocity, draws: Draws, calls: nat)
    requires IntFromDraw(draws(calls), 0, TURN_ODDS) == 0
    ensures Kick(v, draws, calls)
         == (v.AddDy(RealFromDraw(draws(calls + 1), -TURN_KICK, TURN_KICK))
              .AddDx(RealFromDraw(draws(calls + 2), -TURN_KICK, TURN_KICK)), calls + 3)
  {
  }

  /**
   * AffectMovement of one rule, applied to s with the rand() stream at call
   * number calls; the result is the new motion and the new call number.
   */
  function Affect(rule: Rule, s: Motion, draws: Draws, calls: nat): (r: (Motion, nat))
    ensures rule != Inertia ==> r.0.pt == s.pt
    ensures rule != Turn ==> r.1 == calls
    ensures rule == Inertia ==> r.0.pt == s.pt.Add(s.v) && r.0.v == s.v
    ensures rule == Drag ==> r.0.v == Velocity(DRAG * s.v.dx, DRAG * s.v.dy)
    ensures rule == AntiGravity ==> r.0.v == Velocity(s.v.dx, s.v.dy + LIFT)
    ensures rule == Gravity ==> r.0.v == Velocity(s.v.dx, s.v.dy - PULL)
    ensures rule == Turn ==> (r.0.v, r.1) == Kick(s.v, draws, calls)
  {
    match rule
    case Inertia => (Motion(s.pt.Add(s.v), s.v), calls)
    case Drag => (Motion(s.pt, s.v.Scale(DRAG)), calls)
    case AntiGravity => (Motion(s.pt, s.v.AddDy(LIFT)), calls)
    case Gravity => (Motion(s.pt, s.v.AddDy(-PULL)), calls)
    case Turn =>
      var k := Kick(s.v, draws, calls);
      (Motion(s.pt, k.0), k.1)
  }

  /**
   * The rules applied one after another, first to last, each to the motion
   * the previous one produced (the loop of Bird::advance).
   */
  function Run(rules: seq<Rule>, s: Motion, draws: Draws, calls: nat): (r: (Motion, nat))
    decreases |rules|
    ensures calls <= r.1
    ensures Turn !in rules ==> r.1 == calls
    ensures Inertia !in rules ==> r.0.pt == s.pt
  {
    if rules == [] then (s, calls)
    else
      var before := Run(rules[..|rules| - 1], s, draws, calls);
      Affect(rules[|rules| - 1], before.0, draws, before.1)
  }

  /** A rule added at the end runs last, on what the others produced. */
  lemma RunAppend(rules: seq<Rule>, rule: Rule, s: Motion, draws: Draws, calls: nat)
    ensures var before := Run(rules, s, draws, calls);
      Run(rules + [rule], s, draws, calls) == Affect(rule, before.0, draws, before.1)
  {
    assert (rules + [rule])[..|rules|] == rules;
  }

  /** The first rule runs first; the rest see the motion it produced. */
  lemma {:induction false} RunPrepend(rule: Rule, rules: seq<Rule>, s: Motion, draws: Draws, calls: nat)
    ensures var first := Affect(rule, s, draws, calls);
      Run([rule] + rules, s, draws, calls) == Run(rules, first.0, draws, first.1)
    decreases |rules|
  {
    var first := Affect(rule, s, draws, calls);
    if rules == [] {
      assert [rule] + rules == [] + [rule];
      RunAppend([], rule, s, draws, calls);
    } else {
      var init, last := rules[..|rules| - 1], rules[|rules| - 1];
      assert rules == init + [last];
      assert [rule] + rules == ([rule] + init) + [last];
      RunPrepend(rule, init, s, draws, calls);
      RunAppend([rule] + init, last, s, draws, calls);
      RunAppend(init, last, first.0, draws, first.1);
    }
  }

  /** Two rules: the second runs on what the first produced. */
  lemma RunTwo(a: Rule, b: Rule, s: Motion, draws: Draws, calls: nat)
    ensures var first := Affect(a, s, draws, calls);
      Run([a, b], s, draws, calls) == Affect(b, first.0, draws, first.1)
  {
    RunAppend([a], b, s, draws, calls);
    RunAppend([], a, s, draws, calls);
    assert [a] + [b] == [a, b] && [] + [a] == [a];
  }

  /** Three rules, each on what the one before produced. */
  lemma RunThree(a: Rule, b: Rule, c: Rule, s: Motion, draws: Draws, calls: nat)
    ensures var two := Run([a, b], s, draws, calls);
      Run([a, b, c], s, draws, calls) == Affect(c, two.0, draws, two.1)
  {
    RunAppend([a, b], c, s, draws, calls);
    assert [a, b] + [c] == [a, b, c];
  }

  /**
   * Order matters: inertia before drag moves the bird by the old velocity,
   * drag before inertia by the dragged one, so the two orders part ways
   * whenever the bird is moving.
   */
  lemma InertiaDragOrder(s: Motion, draws: Draws, calls: nat)
    ensures Run([Inertia, Drag], s, draws, calls).0.pt == s.pt.Add(s.v)
    ensures Run([Drag, Inertia], s, draws, calls).0.pt == s.pt.Add(s.v.Scale(DRAG))
    ensures s.v != Velocity(0.0, 0.0) ==>
      Run([Inertia, Drag], s, draws, calls) != Run([Drag, Inertia], s, draws, calls)
  {
    RunTwo(Inertia, Drag, s, draws, calls);
    RunTwo(Drag, Inertia, s, draws, calls);
  }

  /**
   * The in-place form: pt and v are the caller's Position& and Velocity&,
   * returned updated; rng is the rand() state.
   */
  method AffectMovement(rule: Rule, pt: Position, v: Velocity, rng: Rng) returns (pt': Position, v': Velocity)
    modifies rng`calls
    ensures (Motion(pt', v'), rng.calls) == Affect(rule, Motion(pt, v), rng.draws, old(rng.calls))
  {
    pt', v' := pt, v;
    match rule {
      case Inertia =>
        pt' := pt'.Add(v');
      case Drag =>
        v' := v'.Scale(DRAG);
      case AntiGravity =>
        v' := v'.AddDy(LIFT);
      case Gravity =>
        v' := v'.AddDy(-PULL);
      case Turn =>
        var chance := rng.RandomInt(0, TURN_ODDS);
        if chance == 0 {
          var ddy := rng.RandomReal(-TURN_KICK, TURN_KICK);
          v' := v'.AddDy(ddy);
          var ddx := rng.RandomReal(-TURN_KICK, TURN_KICK);
          v' := v'.AddDx(ddx);
        }
    }
  }
}
