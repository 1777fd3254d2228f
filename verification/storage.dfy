/** The registry: a fixed map from resource name to resource, with Read
    and Write dispatched by capability and a lifecycle that starts and
    stops every entry. */
module Registry {
  import opened Values
  import opened Event
  import opened EventBus
  import opened StaticResource
  import opened ConstantResource
  import opened ActionResource
  import opened IncrementResource
  import opened FeedbackResource
  import opened ComputedResource

  /** A resource whose code is not part of this model (a sine wave, a
      random source, a user type): it declares which capabilities it has
      and what its Read and Write answer. */
  class External {
    const readable: bool
    const writable: bool
    const readResult: Result<Value>
    const writeResult: Option<Error>
    var name: string
    var events: Events?

    predicate Idle()
      reads this
    {
      name == "" && events == null
    }

    predicate BoundTo(n: string, e: Events)
      reads this
    {
      name == n && events == e
    }

    constructor (readable: bool, writable: bool, readResult: Result<Value>, writeResult: Option<Error>)
      ensures Idle()
      ensures this.readable == readable && this.writable == writable
      ensures this.readResult == readResult && this.writeResult == writeResult
    {
      this.readable := readable;
      this.writable := writable;
      this.readResult := readResult;
      this.writeResult := writeResult;
      name := "";
      events := null;
    }

    method Start(name: string, storage: object, events: Events)
      modifies this
      ensures BoundTo(name, events)
    {
      this.name := name;
      this.events := events;
    }

    method Stop()
      modifies this
      ensures Idle()
    {
      name := "";
      events := null;
    }
  }

  /** A registry entry: which resource type it is, and the instance. */
  datatype Resource =
    | StaticReaderEntry(staticReader: StaticReader)
    | StaticReadWriterEntry(staticReadWriter: StaticReadWriter)
    | ConstantEntry(constant: Constant)
    | ActionEntry(action: ActionResource.Action)
    | IncrementEntry(increment: Increment)
    | FeedbackEntry(feedback: LinearFeedback)
    | ComputedEntry(computed: Computed)
    | ExternalEntry(external: External)

  /** The instance behind an entry. */
  function Obj(r: Resource): (o: object) {
    match r
    case StaticReaderEntry(x) => x
    case StaticReadWriterEntry(x) => x
    case ConstantEntry(x) => x
    case ActionEntry(x) => x
    case IncrementEntry(x) => x
    case FeedbackEntry(x) => x
    case ComputedEntry(x) => x
    case ExternalEntry(x) => x
  }

  /** The Reader capability: every resource type of the model has Read. */
  predicate IsReader(r: Resource)
    ensures !r.ExternalEntry? ==> IsReader(r)
  {
    r.ExternalEntry? ==> r.external.readable
  }

  /** The Writer capability: only StaticReadWriter and Action have Write. */
  predicate IsWriter(r: Resource)
    ensures r.StaticReadWriterEntry? || r.ActionEntry? ==> IsWriter(r)
    ensures r.StaticReaderEntry? || r.ConstantEntry? || r.IncrementEntry? ==> !IsWriter(r)
    ensures r.FeedbackEntry? || r.ComputedEntry? ==> !IsWriter(r)
  {
    || r.StaticReadWriterEntry?
    || r.ActionEntry?
    || (r.ExternalEntry? && r.external.writable)
  }

  /** The resource's own Read. */
  function OwnRead(r: Resource): (read: Result<Value>)
    reads Obj(r)
  {
    match r
    case StaticReaderEntry(x) => x.Read()
    case StaticReadWriterEntry(x) => x.Read()
    case ConstantEntry(x) => x.Read()
    case ActionEntry(x) => x.Read()
    case IncrementEntry(x) => x.Read()
    case FeedbackEntry(x) => x.Read()
    case ComputedEntry(x) => x.Read()
    case ExternalEntry(x) => x.readResult
  }

  /** The error the resource's own Write reports for `value`, if any. */
  function OwnWriteError(r: Resource, value: Value): (err: Option<Error>) {
    match r
    case StaticReadWriterEntry(x) =>
      if HasKind(value, x.kind) then None else Some(MismatchedTypes(x.kind, value))
    case ActionEntry(_) =>
      if value.Bool? then None else Some(MismatchedTypes(BoolKind, value))
    case ExternalEntry(x) => x.writeResult
    case _ => None
  }

  /** Read through the registry of the entry `r` registered as `name`. */
  function ReadEntry(name: string, r: Resource): (read: Result<Value>)
    reads Obj(r)
  {
    if IsReader(r) then
      match OwnRead(r)
      case Ok(v) => Ok(v)
      case Err(e) => Err(ReadFailed(name, e))
    else Err(ReadFailed(name, ResourceNotReadable))
  }

  /** The type invariant of the instance behind an entry. */
  ghost predicate ResValid(r: Resource)
    reads Obj(r)
  {
    match r
    case StaticReaderEntry(x) => x.Valid()
    case StaticReadWriterEntry(x) => x.Valid()
    case ConstantEntry(x) => x.Valid()
    case ComputedEntry(x) => x.Valid()
    case _ => true
  }

  /** Constructed or stopped: bound to nothing, no loop running. */
  predicate IsIdle(r: Resource)
    reads Obj(r)
  {
    match r
    case StaticReaderEntry(x) => x.Idle()
    case StaticReadWriterEntry(x) => x.Idle()
    case ConstantEntry(x) => x.Idle()
    case ActionEntry(x) => x.Idle()
    case IncrementEntry(x) => !x.looping
    case FeedbackEntry(x) => !x.looping
    case ComputedEntry(x) => !x.looping
    case ExternalEntry(x) => x.Idle()
  }

  /** Started under `name` on bus `e` (with its loop running, if it has one). */
  predicate IsBound(r: Resource, name: string, e: Events)
    reads Obj(r)
  {
    match r
    case StaticReaderEntry(x) => x.BoundTo(name, e)
    case StaticReadWriterEntry(x) => x.BoundTo(name, e)
    case ConstantEntry(x) => x.BoundTo(name, e)
    case ActionEntry(x) => x.BoundTo(name, e)
    case IncrementEntry(x) => x.BoundTo(name, e)
    case FeedbackEntry(x) => x.BoundTo(name, e)
    case ComputedEntry(x) => x.BoundTo(name, e)
    case ExternalEntry(x) => x.BoundTo(name, e)
  }

  /** What a read of `name` gives in the registry view `view`; an error
      stands for every failed read. */
  function ViewRead(view: Snapshot, name: string): (read: Result<Value>) {
    if name in view then Ok(view[name]) else Err(ReadFailed(name, ResourceNotReadable))
  }

  /** Started under `name` on `e`, with a computed entry seeded from the
      registry view `view` and a controller's target read from it. */
  predicate StartedWith(r: Resource, name: string, e: Events, view: Snapshot)
    reads Obj(r)
  {
    && IsBound(r, name, e)
    && (r.ComputedEntry? ==> r.computed.current == r.computed.callback(name, view))
    && (r.FeedbackEntry? ==> r.feedback.target == ReadSetpoint(ViewRead(view, r.feedback.setpoint), r.feedback.fromFloat).target)
  }

  /** Starting an entry leaves what it reads alone: every entry but an
      action (which Start disarms) and a computed one (which Start seeds
      from its callback). */
  predicate Steady(r: Resource) {
    !r.ActionEntry? && !r.ComputedEntry?
  }

  /** No registry instance is the bus itself. */
  lemma InstanceIsNotBus(r: Resource, e: Events)
    ensures Obj(r) != e
  {
  }

  /** Starts one resource under `name` on `events`, bound to the registry
      `storage`; a controller's first setpoint read and a computed
      resource's callback see `view`. */
  method StartResource(r: Resource, name: string, storage: object, events: Events, view: Snapshot)
    requires IsIdle(r) && ResValid(r)
    modifies Obj(r), events
    ensures ResValid(r)
    ensures StartedWith(r, name, events, view)
    ensures Steady(r) ==> ReadEntry(name, r) == old(ReadEntry(name, r))
  {
    InstanceIsNotBus(r, events);
    match r {
      case StaticReaderEntry(x) => x.Start(name, storage, events);
      case StaticReadWriterEntry(x) => x.Start(name, storage, events);
      case ConstantEntry(x) => x.Start(name, storage, events);
      case ActionEntry(x) => x.Start(name, storage, events);
      case IncrementEntry(x) => x.Start(name, storage, events);
      case FeedbackEntry(x) => x.Start(name, storage, events, ViewRead(view, x.setpoint));
      case ComputedEntry(x) => x.Start(name, storage, events, view);
      case ExternalEntry(x) => x.Start(name, storage, events);
    }
  }

  /** `s` lists every name of `keys` exactly once. */
  predicate Enumerates(s: seq<string>, keys: set<string>) {
    && (forall i :: 0 <= i < |s| ==> s[i] in keys)
    && (forall n :: n in keys ==> n in s)
    && (forall i, j :: 0 <= i < j < |s| ==> s[i] != s[j])
  }

  class Storage {
    const memory: map<string, Resource>

    /** The instances of all entries. */
    ghost function Objects(): (objs: set<object>) {
      set n | n in memory :: Obj(memory[n])
    }

    /** The name under which each instance is registered. */
    ghost const owner: map<object, string>

    /** Each instance is registered under one name only (so distinct
        names hold distinct instances), and each has its type invariant. */
    ghost predicate Valid()
      reads Objects()
    {
      && (forall n :: n in memory ==> Obj(memory[n]) in owner && owner[Obj(memory[n])] == n)
      && (forall n :: n in memory ==> ResValid(memory[n]))
    }

    /** The registry over a fixed map, which it never changes. */
    constructor (memory: map<string, Resource>)
      requires forall a, b :: a in memory && b in memory && a != b ==> Obj(memory[a]) != Obj(memory[b])
      requires forall n :: n in memory ==> ResValid(memory[n])
      ensures Valid()
      ensures this.memory == memory
    {
      this.memory := memory;
      owner := map n | n in memory :: Obj(memory[n]) := n;
    }

    /** Read by name. An unknown name or a resource without Read fails
        with NotReadable; a resource's own error is wrapped with the name;
        otherwise its value comes back unchanged. */
    function Read(name: string): (r: Result<Value>)
      reads Objects()
      ensures name !in memory || !IsReader(memory[name]) ==> r == Err(ReadFailed(name, ResourceNotReadable))
      ensures name in memory && IsReader(memory[name]) ==>
                var own := OwnRead(memory[name]);
                (own.Ok? ==> r == own) && (own.Err? ==> r == Err(ReadFailed(name, own.error)))
      ensures r.Err? ==> r.error.ReadFailed? && r.error.resource == name
    {
      if name in memory then ReadEntry(name, memory[name])
      else Err(ReadFailed(name, ResourceNotReadable))
    }

    /** Write by name. An unknown name or a resource without Write fails
        with NotWritable and touches nothing; otherwise the resource's
        Write runs once and its error, if any, is wrapped with the name.
        For an Action, `completes` is the callback's answer; `invoked`
        tells whether it ran, `emitted` what a StaticReadWriter announced. */
    method Write(name: string, value: Value, completes: bool) returns (err: Option<Error>, emitted: Option<Emission>, invoked: bool)
      requires Valid()
      requires name in memory && memory[name].StaticReadWriterEntry? ==> memory[name].staticReadWriter.events != null
      modifies if name in memory && IsWriter(memory[name]) then {Obj(memory[name])} else {}
      ensures Valid()
      ensures name !in memory || !IsWriter(memory[name]) ==> err == Some(WriteFailed(name, ResourceNotWritable))
      ensures name in memory && IsWriter(memory[name]) ==>
                err == match OwnWriteError(memory[name], value)
                       case None => None
                       case Some(e) => Some(WriteFailed(name, e))
      ensures invoked <==> name in memory && memory[name].ActionEntry? && value == Bool(true)
      ensures emitted.Some? ==> name in memory && memory[name].StaticReadWriterEntry? && err.None?
      ensures name in memory && memory[name].StaticReadWriterEntry? && err.None? ==>
                emitted == Some(Emission(Changed(memory[name].staticReadWriter.name), NoPayload))
      ensures err.None? && memory[name].StaticReadWriterEntry? ==> Read(name) == Ok(value)
      ensures err.None? && memory[name].ActionEntry? ==> Read(name) == Ok(Bool(value.b && !completes))
      ensures err.Some? ==> Read(name) == old(Read(name))
      ensures forall n :: n in memory && n != name ==> Read(n) == old(Read(n))
      ensures forall e: Events :: old(allocated(e)) && name in memory && old(IsBound(memory[name], name, e)) ==> IsBound(memory[name], name, e)
    {
      if name in memory && IsWriter(memory[name]) {
        match memory[name]
        case StaticReadWriterEntry(x) =>
          var e;
          e, emitted := x.Write(value);
          err := if e.None? then None else Some(WriteFailed(name, e.value));
          invoked := false;
        case ActionEntry(x) =>
          var e;
          e, invoked := x.Write(value, completes);
          err := if e.None? then None else Some(WriteFailed(name, e.value));
          emitted := None;
        case ExternalEntry(x) =>
          err := if x.writeResult.None? then None else Some(WriteFailed(name, x.writeResult.value));
          emitted, invoked := None, false;
      } else {
        err, emitted, invoked := Some(WriteFailed(name, ResourceNotWritable)), None, false;
      }
    }

    /** Starts every entry once, under its own name, on `events`, in an
        unspecified order; `visited` is that order, and `views` holds the
        registry as each entry saw it when it was started. Entries other
        than actions and computed ones read the same throughout, so every
        view agrees with the registry before Start on those entries. */
    method Start(events: Events) returns (visited: seq<string>, ghost views: map<string, Snapshot>)
      requires Valid()
      requires forall n :: n in memory ==> IsIdle(memory[n])
      modifies Objects(), events
      ensures Valid()
      ensures Enumerates(visited, memory.Keys)
      ensures forall n :: n in memory ==> n in views && StartedWith(memory[n], n, events, views[n])
      ensures forall m :: m in memory && Steady(memory[m]) ==> Read(m) == old(Read(m))
      ensures forall n, m :: n in views && m in memory && Steady(memory[m]) ==>
                (m in views[n] <==> old(Read(m)).Ok?) && (m in views[n] ==> old(Read(m)) == Ok(views[n][m]))
    {
      ghost var initial := map m | m in memory :: Read(m);
      var remaining := memory.Keys;
      visited := [];
      views := map[];
      while remaining != {}
        invariant Valid()
        invariant Splits(remaining, visited)
        invariant forall n :: n in remaining ==> IsIdle(memory[n])
        invariant forall n :: n in visited ==> n in views && StartedWith(memory[n], n, events, views[n])
        invariant ReadsAsBefore(initial)
        invariant forall n :: n in views ==> AgreesOnSteady(views[n], initial)
        decreases remaining
      {
        var n :| n in remaining;
        SplitsStep(remaining, visited, n);
        var now := StartNext(n, events, remaining, visited, views, initial);
        views := views[n := now];
        remaining := remaining - {n};
        visited := visited + [n];
      }
      forall m | m in memory && Steady(memory[m])
        ensures Read(m) == old(Read(m))
      {
        assert Read(m) == ReadEntry(m, memory[m]) == initial[m];
      }
    }

    /** `visited` lists once each the names of the registry not in
        `remaining`. */
    predicate Splits(remaining: set<string>, visited: seq<string>) {
      && remaining <= memory.Keys
      && (forall n :: n in memory ==> (n in visited <==> n !in remaining))
      && (forall i :: 0 <= i < |visited| ==> visited[i] in memory)
      && (forall i, j :: 0 <= i < j < |visited| ==> visited[i] != visited[j])
    }

    /** Moving one name from `remaining` to the end of `visited` keeps the split. */
    lemma SplitsStep(remaining: set<string>, visited: seq<string>, n: string)
      requires Splits(remaining, visited) && n in remaining
      ensures Splits(remaining - {n}, visited + [n])
    {
    }

    /** Every entry that Start does not change reads as in `initial`. */
    ghost predicate ReadsAsBefore(initial: map<string, Result<Value>>)
      reads Objects()
    {
      forall m :: m in memory && Steady(memory[m]) ==> m in initial && ReadEntry(m, memory[m]) == initial[m]
    }

    /** The view `view` agrees with the reads `initial` on every entry that
        Start does not change. */
    ghost predicate AgreesOnSteady(view: Snapshot, initial: map<string, Result<Value>>) {
      forall m :: m in memory && Steady(memory[m]) && m in initial ==>
        (m in view <==> initial[m].Ok?) && (m in view ==> initial[m] == Ok(view[m]))
    }

    /** One round of Start's loop: the entry `n` is started with the
        registry as it reads now. What the loop keeps carries over: the
        idle entries, the started ones with their views, and the reads of
        the entries Start leaves alone (`initial`). */
    method StartNext(n: string, events: Events, ghost remaining: set<string>, ghost visited: seq<string>,
                     ghost views: map<string, Snapshot>, ghost initial: map<string, Result<Value>>)
      returns (view: Snapshot)
      requires Valid() && n in remaining && Splits(remaining, visited)
      requires forall k :: k in remaining ==> IsIdle(memory[k])
      requires forall k :: k in visited ==> k in views && StartedWith(memory[k], k, events, views[k])
      requires ReadsAsBefore(initial)
      requires forall k :: k in views ==> AgreesOnSteady(views[k], initial)
      modifies Obj(memory[n]), events
      ensures Valid()
      ensures view == old(ReadAll())
      ensures forall k :: k in remaining - {n} ==> IsIdle(memory[k])
      ensures forall k :: k in visited + [n] ==> k in views[n := view] && StartedWith(memory[k], k, events, views[n := view][k])
      ensures AgreesOnSteady(view, initial)
      ensures ReadsAsBefore(initial)
    {
      view := ReadAll();
      StartEntry(n, events, view);
      forall m | m in memory && Steady(memory[m])
        ensures ReadEntry(m, memory[m]) == initial[m]
      {
        if m != n {
          assert unchanged(Obj(memory[m]));
        }
      }
    }

    /** What Read returns for every name at this moment: the view of the
        registry a computed callback has when it runs. */
    function ReadAll(): (s: Snapshot)
      reads Objects()
      ensures forall m :: m in s <==> m in memory && Read(m).Ok?
      ensures forall m :: m in s ==> Read(m) == Ok(s[m])
    {
      map m | m in memory && Read(m).Ok? :: Read(m).value
    }

    /** Starts the entry `n`, leaving every other entry as it was. A
        controller's first setpoint read and a computed entry's callback
        see `view`, which Start takes from the registry as it is when the
        entry starts. */
    method StartEntry(n: string, events: Events, view: Snapshot)
      requires Valid() && n in memory && IsIdle(memory[n])
      modifies Obj(memory[n]), events
      ensures Valid()
      ensures forall m :: m in memory && m != n ==> unchanged(Obj(memory[m]))
      ensures StartedWith(memory[n], n, events, view)
      ensures Steady(memory[n]) ==> ReadEntry(n, memory[n]) == old(ReadEntry(n, memory[n]))
    {
      forall m | m in memory { InstanceIsNotBus(memory[m], events); }
      StartResource(memory[n], n, this, events, view);
    }

    /** Stops every entry once, in an unspecified order; `visited` is that order. */
    method Stop(events: Events) returns (visited: seq<string>)
      requires Valid()
      requires forall n :: n in memory ==> IsBound(memory[n], n, events)
      modifies Objects(), events
      ensures Valid()
      ensures Enumerates(visited, memory.Keys)
      ensures forall n :: n in memory ==> IsIdle(memory[n])
    {
      var remaining := memory.Keys;
      visited := [];
      while remaining != {}
        invariant remaining <= memory.Keys
        invariant forall n :: n in memory ==> (n in visited <==> n !in remaining)
        invariant forall i :: 0 <= i < |visited| ==> visited[i] in memory
        invariant forall i, j :: 0 <= i < j < |visited| ==> visited[i] != visited[j]
        invariant Valid()
        invariant forall n :: n in remaining ==> IsBound(memory[n], n, events)
        invariant forall n :: n in visited ==> IsIdle(memory[n])
        decreases remaining
      {
        var n :| n in remaining;
        StopEntry(n, events);
        remaining := remaining - {n};
        visited := visited + [n];
      }
    }

    /** Stops the entry `n`, leaving every other entry as it was. */
    method StopEntry(n: string, events: Events)
      requires Valid() && n in memory && IsBound(memory[n], n, events)
      modifies Obj(memory[n]), events
      ensures Valid()
      ensures IsIdle(memory[n])
      ensures forall m :: m in memory && m != n ==> unchanged(Obj(memory[m]))
    {
      forall m | m in memory { InstanceIsNotBus(memory[m], events); }
      var r := memory[n];
      match r {
        case StaticReaderEntry(x) => x.Stop();
        case StaticReadWriterEntry(x) => x.Stop();
        case ConstantEntry(x) => x.Stop();
        case ActionEntry(x) => x.Stop();
        case IncrementEntry(x) => x.Stop();
        case FeedbackEntry(x) => x.Stop();
        case ComputedEntry(x) => x.Stop();
        case ExternalEntry(x) => x.Stop();
      }
    }
  }

  /** A session of the registry: after Start, a write by name leaves
      every entry bound, so Stop can follow and leaves every entry idle. */
  method Session(storage: Storage, events: Events, name: string, value: Value, completes: bool)
    returns (err: Option<Error>)
    requires storage.Valid()
    requires forall n :: n in storage.memory ==> IsIdle(storage.memory[n])
    modifies storage.Objects(), events
    ensures storage.Valid()
    ensures forall n :: n in storage.memory ==> IsIdle(storage.memory[n])
    ensures name !in storage.memory || !IsWriter(storage.memory[name]) ==> err == Some(WriteFailed(name, ResourceNotWritable))
  {
    var _, _ := storage.Start(events);
    var emitted, invoked;
    err, emitted, invoked := storage.Write(name, value, completes);
    var _ := storage.Stop(events);
  }
}
