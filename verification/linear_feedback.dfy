/** A controller that ramps its int32 value toward a setpoint read from
    another resource, by at most `step` per timer tick, without passing it. */
module FeedbackResource {
  import opened Values
  import opened Event
  import opened EventBus

  /** Distance between two integers. */
  function Dist(a: int, b: int): (d: nat) {
    if a <= b then b - a else a - b
  }

  predicate InInt32(x: int) {
    MinInt32 <= x <= MaxInt32
  }

  function Min(a: int, b: int): (m: int) {
    if a <= b then a else b
  }

  function Max(a: int, b: int): (m: int) {
    if a <= b then b else a
  }

  /** One tick as the loop is written: `current += step` (or `-= step`)
      wraps around like int32 BEFORE the result is compared with the
      target, so near the int32 limits a tick can jump to the far end of
      the range instead of stopping at the target. It never passes the
      target, and where it does not stop on it, it has moved by `step`
      modulo 2^32 (possibly to behind its start). */
  function ApproachAsWritten(current: Int32, target: Int32, step: Int32): (r: Int32)
    ensures current == target ==> r == current
    ensures current < target ==> r <= target
    ensures current > target ==> r >= target
    ensures current < target && r != target ==> (current + step - r) % TwoTo32 == 0
    ensures current > target && r != target ==> (current - step - r) % TwoTo32 == 0
  {
    if current < target then
      var moved := Wrap32(current + step);
      if moved > target then target else moved
    else if current > target then
      var moved := Wrap32(current - step);
      if moved < target then target else moved
    else current
  }

  /** One tick as intended: move `step` toward the target and stop at the
      target if the exact sum, or the sum wrapped around as int32, would
      pass it. Whatever the step, the target is never passed; a negative
      step moves away from it and wraps like the source's `+=`. */
  function Approach(current: Int32, target: Int32, step: Int32): (r: Int32)
    ensures current == target ==> r == current
    ensures current < target ==> r <= target
    ensures current > target ==> r >= target
    ensures step >= 0 && current < target ==> r == Min(current + step, target)
    ensures step >= 0 && current > target ==> r == Max(current - step, target)
  {
    if current < target then
      if current + step > target || Wrap32(current + step) > target then target else Wrap32(current + step)
    else if current > target then
      if current - step < target || Wrap32(current - step) < target then target else Wrap32(current - step)
    else current
  }

  /** The two ticks differ only where the exact sum passes the target but
      the wrapped one does not: a step toward the target that overflows. */
  lemma ApproachAgreesWithoutPositiveStep(current: Int32, target: Int32, step: Int32)
    requires step <= 0
    ensures ApproachAsWritten(current, target, step) == Approach(current, target, step)
  {
  }

  /** `n` ticks with an unchanged target. */
  function Ramp(current: Int32, target: Int32, step: Int32, n: nat): (r: Int32)
    decreases n
  {
    if n == 0 then current else Ramp(Approach(current, target, step), target, step, n - 1)
  }

  /** The as-written tick overflows: one below the largest int32, with a
      target one higher and a step of 10, the value wraps to the most
      negative end of the range; the intended tick lands on the target. */
  lemma ApproachAsWrittenOverflows()
    ensures ApproachAsWritten(2147483646, 2147483647, 10) == -2147483640
    ensures Dist(ApproachAsWritten(2147483646, 2147483647, 10), 2147483647) > Dist(2147483646, 2147483647)
    ensures Approach(2147483646, 2147483647, 10) == 2147483647
  {
    assert Wrap32(2147483656) == -2147483640;
  }

  /** A negative step from the bottom of the int32 range wraps to the top,
      past the target; both ticks then clamp to the target. */
  lemma NegativeStepWrapsToTarget()
    ensures ApproachAsWritten(-2147483648, 0, -1) == 0
    ensures Approach(-2147483648, 0, -1) == 0
  {
    assert Wrap32(-2147483648 + -1) == 2147483647;
  }

  /** Where no int32 overflow can happen the two ticks agree. */
  lemma ApproachAgrees(current: Int32, target: Int32, step: Int32)
    requires InInt32(current + step) && InInt32(current - step)
    ensures ApproachAsWritten(current, target, step) == Approach(current, target, step)
  {
  }

  /** No overshoot: from below, a tick ends between the start and the
      target; from above likewise; at the target it stays. */
  lemma NoOvershoot(current: Int32, target: Int32, step: Int32)
    requires step >= 0
    ensures var r := Approach(current, target, step);
            && (current <= target ==> current <= r <= target)
            && (current >= target ==> target <= r <= current)
  {
  }

  /** Each tick closes the distance by exactly `step`, or closes it completely. */
  lemma DistanceShrinks(current: Int32, target: Int32, step: Int32)
    requires step >= 0
    ensures Dist(Approach(current, target, step), target)
         == if Dist(current, target) > step then Dist(current, target) - step else 0
  {
  }

  /** A controller at its target holds it, whatever the step. */
  lemma {:induction false} Holds(target: Int32, step: Int32, n: nat)
    ensures Ramp(target, target, step, n) == target
    decreases n
  {
    if n > 0 {
      Holds(target, step, n - 1);
    }
  }

  /** Enough ticks reach the target exactly: once `n * step` covers the
      distance, `n` ticks (and any number beyond) end on the target. */
  lemma {:induction false} Converges(current: Int32, target: Int32, step: Int32, n: nat)
    requires step >= 0
    requires n * step >= Dist(current, target)
    ensures Ramp(current, target, step, n) == target
    decreases n
  {
    if n == 0 {
      assert current == target;
    } else {
      var next := Approach(current, target, step);
      DistanceShrinks(current, target, step);
      assert (n - 1) * step == n * step - step;
      Converges(next, target, step, n - 1);
    }
  }

  /** What readSetpoint returns to an int32 controller. */
  datatype Setpoint = Setpoint(target: Int32, err: Option<Error>)

  /** readSetpoint, given what the registry's Read of the setpoint returned.
      `fromFloat` is Go's float32-to-int32 conversion, which is not part of
      this model. */
  function ReadSetpoint(read: Result<Value>, fromFloat: bv32 -> Int32): (r: Setpoint)
    ensures r.err.None? <==> read.Ok? && (read.value.I32? || read.value.F32?)
    ensures r.err.Some? ==> r.target == 0
    ensures read.Err? ==> r.err == Some(read.error)
    ensures read.Ok? && read.value.I32? ==> r.target == read.value.i
    ensures read.Ok? && read.value.F32? ==> r.target == fromFloat(read.value.bits)
    ensures read.Ok? && !read.value.I32? && !read.value.F32? ==> r.err == Some(NotNumeric(read.value))
  {
    match read
    case Err(e) => Setpoint(0, Some(e))
    case Ok(v) =>
      match v
      case I32(i) => Setpoint(i, None)
      case F32(bits) => Setpoint(fromFloat(bits), None)
      case _ => Setpoint(0, Some(NotNumeric(v)))
  }

  /** The controller. `target` is the loop's local setpoint copy; the
      loop runs while `looping`. */
  class LinearFeedback {
    const step: Int32
    const setpoint: string
    const fromFloat: bv32 -> Int32
    var current: Int32
    var target: Int32
    var name: string
    var storage: object?
    var events: Events?
    var listener: Channel
    var looping: bool

    predicate Idle()
      reads this
    {
      name == "" && storage == null && events == null && !looping
    }

    predicate BoundTo(n: string, e: Events)
      reads this
    {
      looping && name == n && events == e && storage != null
    }

    /** Starts at zero, unbound, with a listener channel of its own. */
    constructor (step: Int32, setpoint: string, fromFloat: bv32 -> Int32)
      ensures Idle() && current == 0
      ensures this.step == step && this.setpoint == setpoint && this.fromFloat == fromFloat
      ensures fresh(listener)
    {
      this.step := step;
      this.setpoint := setpoint;
      this.fromFloat := fromFloat;
      current := 0;
      target := 0;
      name := "";
      storage := null;
      events := null;
      listener := new Channel(0);
      looping := false;
    }

    /** Binds, replaces the listener, starts the loop (whose first act is
        to read the setpoint, given here as `setpointRead`, discarding any
        error) and subscribes the listener to the setpoint's change topic. */
    method Start(name: string, storage: object, events: Events, setpointRead: Result<Value>)
      requires !looping
      modifies this, events
      ensures BoundTo(name, events) && this.storage == storage
      ensures fresh(listener)
      ensures current == old(current)
      ensures target == ReadSetpoint(setpointRead, fromFloat).target
      ensures events.listeners == Added(old(events.listeners), Changed(setpoint), listener)
    {
      this.name, this.storage, this.events := name, storage, events;
      listener := new Channel(0);
      looping := true;
      var s := ReadSetpoint(setpointRead, fromFloat);
      target := s.target;
      events.Subscribe(Changed(setpoint), listener);
    }

    /** The loop woken by a change of the setpoint: re-read it, discarding
        any error (a failed read sets the target to zero). */
    method Notify(setpointRead: Result<Value>)
      requires looping
      modifies this
      ensures target == ReadSetpoint(setpointRead, fromFloat).target
      ensures current == old(current) && looping
      ensures name == old(name) && storage == old(storage) && events == old(events) && listener == old(listener)
    {
      var s := ReadSetpoint(setpointRead, fromFloat);
      target := s.target;
    }

    /** The loop woken by the timer: one clamped step toward the target,
        announced on the change topic unless the value was already there. */
    method Tick() returns (emitted: Option<Emission>)
      requires looping
      modifies this
      ensures current == Approach(old(current), target, step)
      ensures emitted == if old(current) == target then None else Some(Emission(Changed(name), NoPayload))
      ensures target == old(target) && looping
      ensures name == old(name) && storage == old(storage) && events == old(events) && listener == old(listener)
    {
      if current < target {
        if current + step > target || Wrap32(current + step) > target {
          current := target;
        } else {
          current := Wrap32(current + step);
        }
        emitted := Some(Emission(Changed(name), NoPayload));
      } else if current > target {
        if current - step < target || Wrap32(current - step) < target {
          current := target;
        } else {
          current := Wrap32(current - step);
        }
        emitted := Some(Emission(Changed(name), NoPayload));
      } else {
        emitted := None;
      }
    }

    /** Unsubscribes the listener, ends the loop and clears the bindings;
        the value and the listener handle are kept. */
    method Stop()
      requires looping && events != null
      modifies this, events
      ensures Idle()
      ensures current == old(current) && listener == old(listener)
      ensures old(events).listeners == Removed(old(events.listeners), Changed(setpoint), listener)
    {
      var bus, h := events, listener;
      looping := false;
      name, storage, events := "", null, null;
      bus.Unsubscribe(Changed(setpoint), h);
    }

    function Read(): (r: Result<Value>)
      reads this
      ensures r.Ok? && r.value == I32(current)
    {
      Ok(I32(current))
    }
  }

  /** Ticks with an unchanged target never pass it and, with a
      non-negative step, arrive: the method's state follows Ramp. */
  method TickMany(feedback: LinearFeedback, n: nat)
    requires feedback.looping && feedback.step >= 0
    requires n * feedback.step >= Dist(feedback.current, feedback.target)
    modifies feedback
    ensures feedback.current == feedback.target
  {
    ghost var start := feedback.current;
    for i := 0 to n
      invariant feedback.looping && feedback.target == old(feedback.target)
      invariant feedback.current == Ramp(start, feedback.target, feedback.step, i)
    {
      RampSnoc(start, feedback.target, feedback.step, i);
      var _ := feedback.Tick();
    }
    Converges(start, feedback.target, feedback.step, n);
  }

  lemma {:induction false} RampSnoc(current: Int32, target: Int32, step: Int32, n: nat)
    ensures Ramp(current, target, step, n + 1) == Approach(Ramp(current, target, step, n), target, step)
    decreases n
  {
    if n > 0 {
      RampSnoc(Approach(current, target, step), target, step, n - 1);
    }
  }
}
