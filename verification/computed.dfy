/** A derived value: a callback over the registry, recomputed whenever one
    of the resources it depends on announces a change. */
module ComputedResource {
  import opened Values
  import opened Event
  import opened EventBus

  /** The change topics of a dependency list, in list order. */
  function ChangedTopics(dependencies: seq<string>): (topics: seq<Topic>)
    ensures |topics| == |dependencies|
    ensures forall i :: 0 <= i < |dependencies| ==> topics[i] == Changed(dependencies[i])
  {
    if dependencies == [] then []
    else ChangedTopics(dependencies[..|dependencies| - 1]) + [Changed(dependencies[|dependencies| - 1])]
  }

  /** The callback sees the registry only through what it can read, given
      as a snapshot of the readable values at the moment it runs. */
  class Computed {
    const kind: Kind
    const callback: (string, Snapshot) -> Value
    const dependencies: seq<string>
    var current: Value
    var name: string
    var storage: object?
    var events: Events?
    var listener: Channel?
    var looping: bool

    /** The callback returns the resource's type, and so does `current`. */
    ghost predicate Valid()
      reads this
    {
      && HasKind(current, kind)
      && forall n, s :: HasKind(callback(n, s), kind)
    }

    predicate Idle()
      reads this
    {
      name == "" && storage == null && events == null && listener == null && !looping
    }

    predicate BoundTo(n: string, e: Events)
      reads this
    {
      looping && name == n && events == e && storage != null && listener != null
    }

    /** Holds the zero value of its type and is bound to nothing. */
    constructor (kind: Kind, callback: (string, Snapshot) -> Value, dependencies: seq<string>)
      requires forall n, s :: HasKind(callback(n, s), kind)
      ensures Valid() && Idle()
      ensures current == Zero(kind)
      ensures this.kind == kind && this.callback == callback && this.dependencies == dependencies
    {
      this.kind := kind;
      this.callback := callback;
      this.dependencies := dependencies;
      current := Zero(kind);
      name := "";
      storage := null;
      events := null;
      listener := null;
      looping := false;
    }

    /** The first half of Start: binds, makes a listener buffered to one
        slot per dependency, seeds the value from the callback and starts
        the loop. */
    method Open(name: string, storage: object, events: Events, snapshot: Snapshot)
      requires Valid() && !looping
      modifies this
      ensures Valid() && BoundTo(name, events) && this.storage == storage
      ensures fresh(listener) && listener.capacity == |dependencies|
      ensures current == callback(name, snapshot)
    {
      this.name, this.storage, this.events := name, storage, events;
      listener := new Channel(|dependencies|);
      current := callback(name, snapshot);
      looping := true;
    }

    /** Seeds the value before any notification, then subscribes the
        listener to the change topic of each dependency, in list order. */
    method Start(name: string, storage: object, events: Events, snapshot: Snapshot)
      requires Valid() && !looping
      modifies this, events
      ensures Valid() && BoundTo(name, events) && this.storage == storage
      ensures fresh(listener) && listener.capacity == |dependencies|
      ensures current == callback(name, snapshot)
      ensures events.listeners == AddedAll(old(events.listeners), ChangedTopics(dependencies), listener)
    {
      Open(name, storage, events, snapshot);
      var h := listener;
      ghost var topics := ChangedTopics(dependencies);
      for i := 0 to |dependencies|
        invariant events.listeners == AddedAll(old(events.listeners), topics[..i], h)
        modifies events
      {
        AddedAllSnoc(old(events.listeners), topics[..i], topics[i], h);
        assert topics[..i + 1] == topics[..i] + [topics[i]];
        events.Subscribe(Changed(dependencies[i]), h);
      }
      assert topics[..|dependencies|] == topics;
    }

    /** One loop iteration on a notification: recompute from the registry
        as it is now and announce the new value with its payload. */
    method Recompute(snapshot: Snapshot) returns (emitted: Emission)
      requires Valid() && looping
      modifies this
      ensures Valid() && looping
      ensures current == callback(name, snapshot)
      ensures emitted == Emission(Changed(name), ChangedPayload(name, current))
      ensures name == old(name) && storage == old(storage) && events == old(events) && listener == old(listener)
    {
      current := callback(name, snapshot);
      emitted := Emission(Changed(name), ChangedPayload(name, current));
    }

    /** The last half of Stop: ends the loop, clears the bindings and puts
        back the zero value. */
    method Close()
      requires Valid()
      modifies this
      ensures Valid() && Idle()
      ensures current == Zero(kind)
    {
      looping := false;
      name, storage, events, listener := "", null, null, null;
      current := Zero(kind);
    }

    /** Unsubscribes the listener from every dependency, ends the loop,
        clears the bindings and puts back the zero value. */
    method Stop()
      requires Valid() && looping && events != null && listener != null
      modifies this, events
      ensures Valid() && Idle()
      ensures current == Zero(kind)
      ensures old(events).listeners
           == RemovedAll(old(events.listeners), ChangedTopics(dependencies), old(listener))
    {
      var bus, h := events, listener;
      Close();
      ghost var topics := ChangedTopics(dependencies);
      for i := 0 to |dependencies|
        invariant bus.listeners == RemovedAll(old(bus.listeners), topics[..i], h)
        modifies bus
      {
        RemovedAllSnoc(old(bus.listeners), topics[..i], topics[i], h);
        assert topics[..i + 1] == topics[..i] + [topics[i]];
        bus.Unsubscribe(Changed(dependencies[i]), h);
      }
      assert topics[..|dependencies|] == topics;
    }

    /** The current value, never an error. */
    function Read(): (r: Result<Value>)
      reads this
      ensures r.Ok? && r.value == current
    {
      Ok(current)
    }
  }

  /** A Start followed by a Stop gives every topic of the bus back its
      listeners, in order: the fresh listener was nowhere before. */
  method StartThenStop(computed: Computed, name: string, storage: object, events: Events, snapshot: Snapshot, t: Topic)
    requires computed.Valid() && !computed.looping
    modifies computed, events
    ensures Lookup(events.listeners, t) == Lookup(old(events.listeners), t)
    ensures computed.Idle() && computed.current == Zero(computed.kind)
  {
    ghost var before := events.listeners;
    computed.Start(name, storage, events, snapshot);
    var h := computed.listener;
    assert forall u :: h !in Lookup(before, u);
    computed.Stop();
    SubscribeUnsubscribeRoundTrip(before, ChangedTopics(computed.dependencies), h, t);
  }
}
