/** A counter that adds a fixed step on every timer tick and obeys reset,
    pause and resume actions sent on its own action topics (int32 only). */
module IncrementResource {
  import opened Values
  import opened Event
  import opened EventBus

  /** What the update loop can wake up on, other than quitting (which Stop
      performs). A tick is the timer firing. */
  datatype Input = Tick | Reset | Pause | Resume

  /** The state the loop updates: the value and whether the timer is stopped. */
  datatype Counter = Counter(current: Int32, paused: bool)

  /** One iteration of the loop. A paused timer does not fire, so a tick
      input while paused changes nothing. Increments wrap around like int32. */
  function Next(c: Counter, input: Input, initial: Int32, step: Int32): (n: Counter)
    ensures n.paused <==> input == Pause || (input != Resume && c.paused)
    ensures input == Reset ==> n.current == initial
    ensures input == Pause || input == Resume || (input == Tick && c.paused) ==> n.current == c.current
    ensures input == Tick && !c.paused ==> (c.current + step - n.current) % TwoTo32 == 0
  {
    match input
    case Pause => c.(paused := true)
    case Resume => c.(paused := false)
    case Reset => c.(current := initial)
    case Tick => if c.paused then c else c.(current := Wrap32(c.current + step))
  }

  /** What that iteration publishes: the new value on the change topic, for
      a reset and for a tick that fired. */
  function Announced(c: Counter, input: Input, name: string, initial: Int32, step: Int32): (e: Option<Emission>)
    ensures e.Some? <==> input == Reset || (input == Tick && !c.paused)
    ensures e.Some? ==> e.value.topic == Changed(name)
    ensures e.Some? ==> e.value.payload == ChangedPayload(name, I32(Next(c, input, initial, step).current))
    ensures input == Reset ==> e == Some(Emission(Changed(name), ChangedPayload(name, I32(initial))))
  {
    var c' := Next(c, input, initial, step);
    if input == Reset || (input == Tick && !c.paused)
    then Some(Emission(Changed(name), ChangedPayload(name, I32(c'.current))))
    else None
  }

  /** The loop run over a sequence of inputs. */
  function Run(c: Counter, inputs: seq<Input>, initial: Int32, step: Int32): (r: Counter)
    decreases |inputs|
  {
    if inputs == [] then c else Run(Next(c, inputs[0], initial, step), inputs[1..], initial, step)
  }

  /** While paused, nothing but resume or reset affects the counter: no tick fires. */
  lemma {:induction false} PausedHolds(c: Counter, inputs: seq<Input>, initial: Int32, step: Int32)
    requires c.paused
    requires forall i :: 0 <= i < |inputs| ==> inputs[i] != Resume && inputs[i] != Reset
    ensures Run(c, inputs, initial, step) == c
    decreases |inputs|
  {
    if inputs != [] {
      assert Next(c, inputs[0], initial, step) == c;
      PausedHolds(c, inputs[1..], initial, step);
    }
  }

  /** Running and never paused or reset, the counter has moved by one step
      per tick, modulo 2^32. */
  lemma {:induction false} TicksAccumulate(c: Counter, inputs: seq<Input>, initial: Int32, step: Int32)
    requires !c.paused
    requires forall i :: 0 <= i < |inputs| ==> inputs[i] == Tick || inputs[i] == Resume
    ensures Run(c, inputs, initial, step)
         == Counter(Wrap32(c.current + multiset(inputs)[Tick] * step), false)
    decreases |inputs|
  {
    if inputs == [] {
      assert multiset(inputs)[Tick] * step == 0;
    } else {
      var rest := inputs[1..];
      var next := Next(c, inputs[0], initial, step);
      assert Run(c, inputs, initial, step) == Run(next, rest, initial, step);
      TicksAccumulate(next, rest, initial, step);
      CountFirst(inputs, Tick);
      var ticked := inputs[0] == Tick;
      assert next.current == if ticked then Wrap32(c.current + step) else c.current;
      TickCount(c.current, next.current, step, multiset(rest)[Tick], ticked);
    }
  }

  /** The value after the first input followed by k ticks: one more step
      if the first input was a tick, wrapped once. */
  lemma TickCount(x: Int32, y: Int32, step: Int32, k: nat, ticked: bool)
    requires y == if ticked then Wrap32(x + step) else x
    ensures Wrap32(y + k * step) == Wrap32(x + (if ticked then k + 1 else k) * step)
  {
    if ticked {
      WrapStep(x, step, k);
    }
  }

  /** One wrapped step followed by k more is k + 1 steps, wrapped once. */
  lemma WrapStep(x: int, step: int, k: nat)
    ensures Wrap32(Wrap32(x + step) + k * step) == Wrap32(x + (k + 1) * step)
  {
    WrapAdd(x + step, k * step);
    assert x + step + k * step == x + (k + 1) * step;
  }

  /** From a reset, k ticks with no pause or reset in between give
      initial + k * step (modulo 2^32). */
  lemma ResetThenTicks(c: Counter, k: nat, initial: Int32, step: Int32)
    requires !c.paused
    ensures Run(c, [Reset] + seq(k, _ => Tick), initial, step)
         == Counter(Wrap32(initial + k * step), false)
  {
    var ticks: seq<Input> := seq(k, _ => Tick);
    assert ([Reset] + ticks)[1..] == ticks;
    MultisetTicks(k);
    TicksAccumulate(Counter(initial, false), ticks, initial, step);
  }

  lemma {:induction false} MultisetTicks(k: nat)
    ensures multiset(seq(k, _ => Tick))[Tick] == k
  {
    if k > 0 {
      var s: seq<Input> := seq(k, _ => Tick);
      assert s == seq(k - 1, _ => Tick) + [Tick];
      MultisetTicks(k - 1);
    }
  }

  /** The four unbuffered channels of a started counter. */
  method Channels() returns (quit: Channel, reset: Channel, pause: Channel, resume: Channel)
    ensures fresh(quit) && fresh(reset) && fresh(pause) && fresh(resume)
  {
    quit := new Channel(0);
    reset := new Channel(0);
    pause := new Channel(0);
    resume := new Channel(0);
  }

  /** Subscribing three new handles to three distinct topics and then
      unsubscribing them again gives every topic back its listeners. */
  lemma ThreeRoundTrip(table: Table, a: Topic, x: Channel, b: Topic, y: Channel, c: Topic, z: Channel, t: Topic)
    requires a != b && b != c && a != c
    requires x !in Lookup(table, a) && y !in Lookup(table, b) && z !in Lookup(table, c)
    ensures var added := Added(Added(Added(table, a, x), b, y), c, z);
            Lookup(Removed(Removed(Removed(added, a, x), b, y), c, z), t) == Lookup(table, t)
  {
    var t1 := Added(table, a, x);
    var t2 := Added(t1, b, y);
    var t3 := Added(t2, c, z);
    var r1 := Removed(t3, a, x);
    var r2 := Removed(r1, b, y);
    AddedLookup(table, a, x, t);
    AddedLookup(t1, b, y, t);
    AddedLookup(t2, c, z, t);
    RemovedLookup(t3, a, x, t);
    RemovedLookup(r1, b, y, t);
    RemovedLookup(r2, c, z, t);
    var l := Lookup(table, t);
    if t == a {
      RemoveAppended(l, x);
    } else if t == b {
      RemoveAppended(l, y);
    } else if t == c {
      RemoveAppended(l, z);
    }
  }

  class Increment {
    const initial: Int32
    const step: Int32
    var current: Int32
    var paused: bool
    var looping: bool
    var name: string
    var storage: object?
    var events: Events?
    var quit: Channel?
    var reset: Channel?
    var pause: Channel?
    var resume: Channel?

    predicate Idle()
      reads this
    {
      && name == "" && storage == null && events == null && !looping
      && quit == null && reset == null && pause == null && resume == null
    }

    /** Between Start and Stop: the loop runs and the channels exist. */
    predicate Running()
      reads this
    {
      && looping && events != null && storage != null
      && quit != null && reset != null && pause != null && resume != null
    }

    predicate BoundTo(n: string, e: Events)
      reads this
    {
      Running() && name == n && events == e
    }

    constructor (initial: Int32, step: Int32)
      ensures Idle() && !paused
      ensures this.initial == initial && this.step == step && current == initial
    {
      this.initial := initial;
      this.step := step;
      current := initial;
      paused := false;
      looping := false;
      name := "";
      storage := null;
      events := null;
      quit := null;
      reset := null;
      pause := null;
      resume := null;
    }

    /** The first half of Start: binds, creates the four channels and
        starts the loop with a running timer. */
    method Open(name: string, storage: object, events: Events)
      requires !looping
      modifies this
      ensures BoundTo(name, events) && this.storage == storage
      ensures fresh(quit) && fresh(reset) && fresh(pause) && fresh(resume)
      ensures current == old(current) && !paused
    {
      var q, rs, ps, rm := Channels();
      this.name, this.storage, this.events := name, storage, events;
      quit, reset, pause, resume := q, rs, ps, rm;
      looping, paused := true, false;
    }

    /** Binds, creates the channels, starts the loop with a running timer
        and subscribes to the reset, resume and pause action topics, in
        that order. The value is left as it was. */
    method Start(name: string, storage: object, events: Events)
      requires !looping
      modifies this, events
      ensures BoundTo(name, events) && this.storage == storage
      ensures fresh(quit) && fresh(reset) && fresh(pause) && fresh(resume)
      ensures current == old(current) && !paused
      ensures events.listeners
           == Added(Added(Added(old(events.listeners),
                Action(name, "reset"), reset), Action(name, "resume"), resume), Action(name, "pause"), pause)
    {
      Open(name, storage, events);
      events.Subscribe(Action(name, "reset"), reset);
      events.Subscribe(Action(name, "resume"), resume);
      events.Subscribe(Action(name, "pause"), pause);
    }

    /** One loop iteration, taken atomically under the resource's lock. */
    method Step(input: Input) returns (emitted: Option<Emission>)
      requires Running()
      modifies this
      ensures Counter(current, paused) == Next(old(Counter(current, paused)), input, initial, step)
      ensures emitted == Announced(old(Counter(current, paused)), input, name, initial, step)
      ensures Running() && name == old(name) && storage == old(storage) && events == old(events)
      ensures reset == old(reset) && pause == old(pause) && resume == old(resume) && quit == old(quit)
    {
      match input {
        case Pause =>
          paused := true;
          emitted := None;
        case Resume =>
          paused := false;
          emitted := None;
        case Reset =>
          current := initial;
          emitted := Some(Emission(Changed(name), ChangedPayload(name, I32(current))));
        case Tick =>
          if paused {
            emitted := None;
          } else {
            current := Wrap32(current + step);
            emitted := Some(Emission(Changed(name), ChangedPayload(name, I32(current))));
          }
      }
    }

    /** The last half of Stop: ends the loop and clears every binding. */
    method Close()
      modifies this
      ensures Idle()
      ensures current == old(current)
    {
      looping := false;
      name, storage, events := "", null, null;
      quit, reset, resume, pause := null, null, null, null;
    }

    /** Unsubscribes the three action topics, ends the loop and clears
        every binding; the value is left as it was. */
    method Stop()
      requires Running()
      modifies this, events
      ensures Idle()
      ensures current == old(current)
      ensures old(events).listeners
           == Removed(Removed(Removed(old(events.listeners),
                Action(old(name), "reset"), old(reset)), Action(old(name), "resume"), old(resume)),
                Action(old(name), "pause"), old(pause))
    {
      var bus, rs, rm, ps := events, reset, resume, pause;
      var onReset, onResume, onPause := Action(name, "reset"), Action(name, "resume"), Action(name, "pause");
      Close();
      bus.Unsubscribe(onReset, rs);
      bus.Unsubscribe(onResume, rm);
      bus.Unsubscribe(onPause, ps);
    }

    function Read(): (r: Result<Value>)
      reads this
      ensures r.Ok? && r.value == I32(current)
    {
      Ok(I32(current))
    }
  }

  /** A Start followed by a Stop gives every topic of the bus back its
      listeners, in order, and keeps the counter's value. */
  method StartThenStop(increment: Increment, name: string, storage: object, events: Events, t: Topic)
    requires !increment.looping
    modifies increment, events
    ensures Lookup(events.listeners, t) == Lookup(old(events.listeners), t)
    ensures increment.Idle() && increment.current == old(increment.current)
  {
    ghost var before := events.listeners;
    increment.Start(name, storage, events);
    var rs, rm, ps := increment.reset, increment.resume, increment.pause;
    assert forall u :: rs !in Lookup(before, u) && rm !in Lookup(before, u) && ps !in Lookup(before, u);
    ActionInjective(name, "reset", "resume");
    ActionInjective(name, "resume", "pause");
    ActionInjective(name, "reset", "pause");
    increment.Stop();
    ThreeRoundTrip(before, Action(name, "reset"), rs, Action(name, "resume"), rm, Action(name, "pause"), ps, t);
  }
}
