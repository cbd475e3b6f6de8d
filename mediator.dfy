/**
 * The message-passing skeleton of Lab06-MessagePassing/Mediator/Skeet: a
 * Mediator holding a list of colleagues and forwarding each message to
 * every one of them; a bird colleague announcing a bird's death worth its
 * points (negated when the bird escaped); a bullet colleague announcing a
 * shot worth the bullet's value; and a hit-ratio colleague handing the
 * value of every BIRD_DIED message to its status object.
 *
 * The colleague hierarchy becomes one class with a role, since every
 * colleague is reached through the same AbstractColleague pointer. The
 * status object's own adjust is recorded as a log of its arguments, and
 * a ghost Trace records which colleague was notified with which message,
 * so that the order and number of the calls can be stated.
 */
module Mediator {
  import Decorator
  import Bullets

  /** The two message types. */
  datatype MessageType = BirdDied | BulletFired

  /** A message: its type and its value. */
  datatype Message = Message(kind: MessageType, value: int)

  /** Status::adjust is not part of this model: its calls are logged. */
  class Status {
    /** The arguments of every adjust call so far, oldest first. */
    var adjustments: seq<int>

    constructor ()
      ensures adjustments == []
    {
      adjustments := [];
    }

    method Adjust(value: int)
      modifies this
      ensures adjustments == old(adjustments) + [value]
    {
      adjustments := adjustments + [value];
    }
  }

  /** One notify call: who received which message. */
  datatype Delivery = Delivery(to: Colleague, message: Message)

  /** The notify calls made so far, oldest first. */
  class Trace {
    ghost var deliveries: seq<Delivery>

    constructor ()
      ensures deliveries == []
    {
      deliveries := [];
    }
  }

  /** What a colleague is and the object it watches or updates. */
  datatype Role =
    | BirdRole(bird: Decorator.Bird)
    | BulletRole(bullet: Bullets.Bullet)
    | HitRatioRole(status: Status)

  /** The statuses the hit-ratio colleagues among cs update. */
  function Statuses(cs: seq<Colleague>): set<Status> {
    set c | c in cs && c.role.HitRatioRole? :: c.role.status
  }

  /**
   * The adjust calls status st receives when m is delivered to cs in
   * order: one m.value per hit-ratio colleague of st when m is BIRD_DIED,
   * none otherwise.
   */
  function Adjustments(cs: seq<Colleague>, st: Status, m: Message): seq<int> {
    if cs == [] then []
    else
      Adjustments(cs[..|cs| - 1], st, m)
      + (if cs[|cs| - 1].role == HitRatioRole(st) && m.kind == BirdDied then [m.value] else [])
  }

  /** The number of hit-ratio colleagues of st among cs. */
  function Watchers(cs: seq<Colleague>, st: Status): (r: nat)
    ensures r <= |cs|
  {
    if cs == [] then 0
    else Watchers(cs[..|cs| - 1], st) + (if cs[|cs| - 1].role == HitRatioRole(st) then 1 else 0)
  }

  /**
   * A BIRD_DIED message adjusts st once per watcher, each time by the
   * message's value; a BULLET_FIRED message leaves it untouched.
   */
  lemma {:induction false} AdjustmentsByWatchers(cs: seq<Colleague>, st: Status, m: Message)
    ensures m.kind == BirdDied ==> Adjustments(cs, st, m) == seq(Watchers(cs, st), _ => m.value)
    ensures m.kind == BulletFired ==> Adjustments(cs, st, m) == []
  {
    if cs != [] {
      AdjustmentsByWatchers(cs[..|cs| - 1], st, m);
    }
  }

  /** A status nobody watches is never adjusted. */
  lemma {:induction false} UnwatchedStatus(cs: seq<Colleague>, st: Status, m: Message)
    requires st !in Statuses(cs)
    ensures Watchers(cs, st) == 0 && Adjustments(cs, st, m) == []
  {
    if cs != [] {
      assert Statuses(cs[..|cs| - 1]) <= Statuses(cs) by {
        forall s | s in Statuses(cs[..|cs| - 1]) ensures s in Statuses(cs) {
          var c :| c in cs[..|cs| - 1] && c.role.HitRatioRole? && c.role.status == s;
          assert c in cs;
        }
      }
      UnwatchedStatus(cs[..|cs| - 1], st, m);
      assert cs[|cs| - 1] in cs;
    }
  }

  /** Delivering to cs then to one more colleague: the adjustments add up. */
  lemma AdjustmentsAppend(cs: seq<Colleague>, c: Colleague, st: Status, m: Message)
    ensures Adjustments(cs + [c], st, m)
         == Adjustments(cs, st, m) + (if c.role == HitRatioRole(st) && m.kind == BirdDied then [m.value] else [])
  {
    assert (cs + [c])[..|cs|] == cs;
  }

  /**
   * The messages a bird colleague sends, fed through a mediator whose
   * only watcher of st is one hit-ratio colleague: st is adjusted by
   * -points when the bird escaped, by +points when it was shot, and not
   * at all by a fired bullet.
   */
  lemma SingleWatcher(cs: seq<Colleague>, st: Status, points: int, value: int)
    requires Watchers(cs, st) == 1
    ensures Adjustments(cs, st, Message(BirdDied, -points)) == [-points]
    ensures Adjustments(cs, st, Message(BirdDied, points)) == [points]
    ensures Adjustments(cs, st, Message(BulletFired, value)) == []
  {
    AdjustmentsByWatchers(cs, st, Message(BirdDied, -points));
    AdjustmentsByWatchers(cs, st, Message(BirdDied, points));
    AdjustmentsByWatchers(cs, st, Message(BulletFired, value));
  }

  /** A colleague, with the pointer to its mediator and its message buffer. */
  class Colleague {
    const role: Role
    const mediator: Mediator
    ghost const trace: Trace
    /** The Message object the bird and bullet colleagues fill before sending. */
    var message: Message

    /**
     * AbstractColleague::enroll has an empty body, so the mediator pointer
     * is never set in the source; here it is given at construction.
     */
    constructor (role: Role, mediator: Mediator)
      ensures this.role == role && this.mediator == mediator && trace == mediator.trace
    {
      this.role, this.mediator := role, mediator;
      trace := mediator.trace;
      message := Message(BirdDied, 0);
    }

    /**
     * notify: the hit-ratio colleague passes the value of a BIRD_DIED
     * message to its status and ignores the rest; the bird and bullet
     * colleagues' notify is empty. The call is recorded.
     */
    method Notify(m: Message)
      modifies trace, if role.HitRatioRole? then {role.status} else {}
      ensures trace.deliveries == old(trace.deliveries) + [Delivery(this, m)]
      ensures role.HitRatioRole? ==>
        role.status.adjustments == old(role.status.adjustments) + (if m.kind == BirdDied then [m.value] else [])
    {
      if role.HitRatioRole? && m.kind == BirdDied {
        role.status.Adjust(m.value);
      }
      trace.deliveries := trace.deliveries + [Delivery(this, m)];
    }

    /**
     * wentOutOfBounds: a BIRD_DIED message worth minus the bird's points is
     * stored and handed to the mediator. The bird is only read.
     */
    method WentOutOfBounds()
      requires role.BirdRole? && mediator.Linked() && mediator.trace == trace
      modifies this`message, trace, Statuses(mediator.colleagues)
      ensures message == Message(BirdDied, -role.bird.points)
      ensures mediator.Sent(old(trace.deliveries), message)
      ensures forall st :: st in Statuses(mediator.colleagues) ==>
        st.adjustments == old(st.adjustments) + Adjustments(mediator.colleagues, st, message)
    {
      message := Message(BirdDied, -role.bird.points);
      mediator.Notify(message);
    }

    /** wasShot: the same, worth plus the bird's points. */
    method WasShot()
      requires role.BirdRole? && mediator.Linked() && mediator.trace == trace
      modifies this`message, trace, Statuses(mediator.colleagues)
      ensures message == Message(BirdDied, role.bird.points)
      ensures mediator.Sent(old(trace.deliveries), message)
      ensures forall st :: st in Statuses(mediator.colleagues) ==>
        st.adjustments == old(st.adjustments) + Adjustments(mediator.colleagues, st, message)
    {
      message := Message(BirdDied, role.bird.points);
      mediator.Notify(message);
    }

    /**
     * firedBullet: a BULLET_FIRED message worth the bullet's value is
     * stored and handed to the mediator; no status changes.
     */
    method FiredBullet()
      requires role.BulletRole? && mediator.Linked() && mediator.trace == trace
      modifies this`message, trace, Statuses(mediator.colleagues)
      ensures message == Message(BulletFired, role.bullet.value)
      ensures mediator.Sent(old(trace.deliveries), message)
      ensures forall st :: st in Statuses(mediator.colleagues) ==> st.adjustments == old(st.adjustments)
    {
      message := Message(BulletFired, role.bullet.value);
      mediator.Notify(message);
      forall st | st in Statuses(mediator.colleagues)
        ensures Adjustments(mediator.colleagues, st, message) == []
      {
        AdjustmentsByWatchers(mediator.colleagues, st, message);
      }
    }
  }

  class Mediator {
    var colleagues: seq<Colleague>
    ghost const trace: Trace

    constructor (trace: Trace)
      ensures colleagues == [] && this.trace == trace
    {
      colleagues := [];
      this.trace := trace;
    }

    /** Every colleague records its calls in the mediator's trace. */
    ghost predicate Linked()
      reads this
    {
      forall c :: c in colleagues ==> c.trace == trace
    }

    /**
     * Since before, the trace holds exactly one delivery of m per
     * colleague, in index order.
     */
    ghost predicate Sent(before: seq<Delivery>, m: Message)
      reads this, trace
    {
      var after := trace.deliveries;
      && |after| == |before| + |colleagues|
      && after[..|before|] == before
      && forall i :: 0 <= i < |colleagues| ==> after[|before| + i] == Delivery(colleagues[i], m)
    }

    /**
     * notify: every colleague, first to last, is notified once with the
     * same message. The colleague list is not changed; with no colleagues
     * nothing happens. Each status is adjusted once per hit-ratio colleague
     * that watches it when the message is BIRD_DIED.
     */
    method Notify(m: Message)
      requires Linked()
      modifies trace, Statuses(colleagues)
      ensures Sent(old(trace.deliveries), m)
      ensures forall st :: st in Statuses(colleagues) ==>
        st.adjustments == old(st.adjustments) + Adjustments(colleagues, st, m)
    {
      ghost var before := trace.deliveries;
      for i := 0 to |colleagues|
        invariant |trace.deliveries| == |before| + i && trace.deliveries[..|before|] == before
        invariant forall j :: 0 <= j < i ==> trace.deliveries[|before| + j] == Delivery(colleagues[j], m)
        invariant forall st :: st in Statuses(colleagues) ==>
          st.adjustments == old(st.adjustments) + Adjustments(colleagues[..i], st, m)
      {
        NotifyNext(colleagues, i, m);
        forall st | st in Statuses(colleagues)
          ensures Adjustments(colleagues[..i + 1], st, m)
               == Adjustments(colleagues[..i], st, m)
                  + (if colleagues[i].role == HitRatioRole(st) && m.kind == BirdDied then [m.value] else [])
        {
          assert colleagues[..i + 1] == colleagues[..i] + [colleagues[i]];
          AdjustmentsAppend(colleagues[..i], colleagues[i], st, m);
        }
      }
      assert colleagues[..|colleagues|] == colleagues;
    }

    /** One step of notify: colleague i receives m. */
    method NotifyNext(cs: seq<Colleague>, i: nat, m: Message)
      requires i < |cs| && cs == colleagues && Linked()
      modifies trace, Statuses(cs)
      ensures trace.deliveries == old(trace.deliveries) + [Delivery(cs[i], m)]
      ensures forall st :: st in Statuses(cs) ==>
        st.adjustments == old(st.adjustments) + (if cs[i].role == HitRatioRole(st) && m.kind == BirdDied then [m.value] else [])
    {
      var c := cs[i];
      assert c in cs;
      assert c.role.HitRatioRole? ==> c.role.status in Statuses(cs);
      c.Notify(m);
    }
  }
}
