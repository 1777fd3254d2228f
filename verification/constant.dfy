/** A read-only resource: it has no Write, so the registry refuses writes to it. */
module ConstantResource {
  import opened Values
  import opened EventBus

  class Constant {
    const kind: Kind
    const current: Value
    var name: string
    var events: Events?

    ghost predicate Valid()
      reads this
    {
      HasKind(current, kind)
    }

    predicate Idle()
      reads this
    {
      name == "" && events == null
    }

    predicate BoundTo(n: string, e: Events)
      reads this
    {
      name == n && events == e
    }

    /** Holds `value` and is bound to nothing. */
    constructor (value: Value)
      requires KindOf(value).Some?
      ensures Valid() && Idle()
      ensures current == value && kind == KindOf(value).value
    {
      kind := KindOf(value).value;
      current := value;
      name := "";
      events := null;
    }

    /** Always the construction value, never an error. */
    function Read(): (r: Result<Value>)
      reads this
      ensures r.Ok? && r.value == current
    {
      Ok(current)
    }

    method Start(name: string, storage: object, events: Events)
      modifies this
      ensures BoundTo(name, events)
    {
      this.name := name;
      this.events := events;
    }

    method Stop()
      modifies this
      ensures Idle()
    {
      name := "";
      events := null;
    }
  }
}
