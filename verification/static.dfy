/** Fixed-value resources: a read-only one and a typed read/write one. */
module StaticResource {
  import opened Values
  import opened Event
  import opened EventBus

  /** A value given at construction, readable, never written. */
  class StaticReader {
    const kind: Kind
    const current: Value
    var name: string
    var events: Events?

    ghost predicate Valid()
      reads this
    {
      HasKind(current, kind)
    }

    predicate Idle()
      reads this
    {
      name == "" && events == null
    }

    predicate BoundTo(n: string, e: Events)
      reads this
    {
      name == n && events == e
    }

    constructor (value: Value)
      requires KindOf(value).Some?
      ensures Valid() && Idle()
      ensures current == value && kind == KindOf(value).value
    {
      kind := KindOf(value).value;
      current := value;
      name := "";
      events := null;
    }

    /** Always the construction value, never an error. */
    function Read(): (r: Result<Value>)
      reads this
      ensures r.Ok? && r.value == current
    {
      Ok(current)
    }

    /** Binds the name and the bus; the value is untouched. */
    method Start(name: string, storage: object, events: Events)
      modifies this
      ensures BoundTo(name, events)
    {
      this.name := name;
      this.events := events;
    }

    method Stop()
      modifies this
      ensures Idle()
    {
      name := "";
      events := null;
    }
  }

  /** A typed value that callers may overwrite; each accepted write is
      announced on the resource's change topic. */
  class StaticReadWriter {
    const kind: Kind
    var current: Value
    var name: string
    var events: Events?

    /** The value type chosen at construction never changes. */
    ghost predicate Valid()
      reads this
    {
      HasKind(current, kind)
    }

    predicate Idle()
      reads this
    {
      name == "" && events == null
    }

    predicate BoundTo(n: string, e: Events)
      reads this
    {
      name == n && events == e
    }

    constructor (value: Value)
      requires KindOf(value).Some?
      ensures Valid() && Idle()
      ensures current == value && kind == KindOf(value).value
    {
      kind := KindOf(value).value;
      current := value;
      name := "";
      events := null;
    }

    function Read(): (r: Result<Value>)
      reads this
      ensures r.Ok? && r.value == current
    {
      Ok(current)
    }

    /** A value of the resource's type replaces the current one and is
        announced (with no payload) on the change topic; any other value is
        refused with MismatchedTypes and changes nothing. The source reaches
        the bus through `events`, so it must be bound. */
    method Write(value: Value) returns (err: Option<Error>, emitted: Option<Emission>)
      requires Valid()
      requires events != null
      modifies this
      ensures Valid()
      ensures err.None? <==> HasKind(value, kind)
      ensures err.None? ==> current == value && emitted == Some(Emission(Changed(name), NoPayload))
      ensures err.Some? ==> err.value == MismatchedTypes(kind, value) && emitted.None?
      ensures err.Some? ==> current == old(current)
      ensures name == old(name) && events == old(events)
    {
      if HasKind(value, kind) {
        current := value;
        err, emitted := None, Some(Emission(Changed(name), NoPayload));
      } else {
        err, emitted := Some(MismatchedTypes(kind, value)), None;
      }
    }

    method Start(name: string, storage: object, events: Events)
      modifies this
      ensures BoundTo(name, events)
      ensures current == old(current)
    {
      this.name := name;
      this.events := events;
    }

    method Stop()
      modifies this
      ensures Idle()
      ensures current == old(current)
    {
      name := "";
      events := null;
    }
  }

  /** A successful write is what the next read returns. */
  method WriteThenRead(rw: StaticReadWriter, value: Value) returns (read: Result<Value>)
    requires rw.Valid() && rw.events != null
    requires HasKind(value, rw.kind)
    modifies rw
    ensures read == Ok(value)
  {
    var err, _ := rw.Write(value);
    read := rw.Read();
  }
}
