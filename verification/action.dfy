/** A momentary command: writing `true` arms it and runs a callback, which
    disarms it again when it reports completion. */
module ActionResource {
  import opened Values
  import opened EventBus

  /** The callback is code outside the model: each write that runs it is
      given the callback's boolean answer as `completes`. */
  class Action {
    var current: bool
    var name: string
    var storage: object?
    var events: Events?

    predicate Idle()
      reads this
    {
      name == "" && storage == null && events == null
    }

    predicate BoundTo(n: string, e: Events)
      reads this
    {
      name == n && events == e && storage != null
    }

    constructor ()
      ensures Idle() && !current
    {
      current := false;
      name := "";
      storage := null;
      events := null;
    }

    /** Disarms the flag and binds the resource. */
    method Start(name: string, storage: object, events: Events)
      modifies this
      ensures BoundTo(name, events) && this.storage == storage
      ensures !current
    {
      current := false;
      this.name := name;
      this.storage := storage;
      this.events := events;
    }

    /** Clears the bindings; the flag is left as it was. */
    method Stop()
      modifies this
      ensures Idle()
      ensures current == old(current)
    {
      name := "";
      storage := null;
      events := null;
    }

    function Read(): (r: Result<Value>)
      reads this
      ensures r.Ok? && r.value == Bool(current)
    {
      Ok(Bool(current))
    }

    /** A non-boolean is refused with MismatchedTypes, changes nothing and
        runs no callback. A boolean is stored; `true` runs the callback
        exactly once and is cleared if the callback completes. No error
        otherwise. */
    method Write(value: Value, completes: bool) returns (err: Option<Error>, invoked: bool)
      modifies this
      ensures err.None? <==> value.Bool?
      ensures err.Some? ==> err.value == MismatchedTypes(BoolKind, value)
      ensures invoked <==> value == Bool(true)
      ensures current == if value.Bool? then value.b && !completes else old(current)
      ensures name == old(name) && storage == old(storage) && events == old(events)
    {
      invoked := false;
      if value.Bool? {
        current := value.b;
        if current {
          invoked := true;
          if completes {
            current := false;
          }
        }
        err := None;
      } else {
        err := Some(MismatchedTypes(BoolKind, value));
      }
    }
  }
}
