/** Bus topics and the payloads that travel with them. */
module Event {
  import opened Values

  /** A topic is an opaque string, compared by exact identity. */
  type Topic = string

  /** The topic on which a resource announces a new value: the name
      itself, with nothing before or after it. */
  function Changed(resource: string): (t: Topic)
    ensures |t| == |resource| && resource <= t
  {
    resource
  }

  /** The topic on which a named command is sent to a resource: the
      resource name, a colon, then the action, each recoverable. */
  function Action(resource: string, action: string): (t: Topic)
    ensures |t| == |resource| + 1 + |action|
    ensures t[..|resource|] == resource && t[|resource|] == ':'
    ensures t[|resource| + 1..] == action
  {
    var t := resource + ":" + action;
    assert t == resource + ([':'] + action);
    assert t[|resource|..] == [':'] + action;
    t
  }

  /** What an emission carries: nothing, a (resource, new value) pair,
      or a caller-supplied value. */
  datatype Payload =
    | NoPayload
    | ChangedPayload(resource: string, value: Value)
    | Custom(value: Value)

  /** One call to Emit: a topic and its payload. */
  datatype Emission = Emission(topic: Topic, payload: Payload)

  lemma ChangedInjective(r1: string, r2: string)
    ensures Changed(r1) == Changed(r2) <==> r1 == r2
  {
  }

  /** For one resource, distinct actions give distinct topics. */
  lemma ActionInjective(r: string, a1: string, a2: string)
    ensures Action(r, a1) == Action(r, a2) <==> a1 == a2
  {
  }

  /** An action topic of a resource is never its change topic. */
  lemma ActionIsNotChanged(r: string, a: string)
    ensures Action(r, a) != Changed(r)
    ensures |Action(r, a)| > |Changed(r)|
  {
  }

  /** Topics are plain strings, so a resource whose name contains a colon
      shares its change topic with another resource's action topic. */
  lemma ChangedMayCollideWithAction(r: string, a: string)
    ensures Changed(r + ":" + a) == Action(r, a)
    ensures Action(r + ":" + a, "reset") == Action(r, a + ":reset")
  {
    assert (r + ":" + a) + ":" + "reset" == r + ":" + (a + ":reset");
  }
}
