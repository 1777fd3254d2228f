/** The event bus: a table from topic to the ordered listener handles
    subscribed to it. */
module EventBus {
  import opened Values
  import opened Event

  /** A listener handle: a Go channel, equal only to itself. */
  class Channel {
    const capacity: nat

    constructor (capacity: nat)
      ensures this.capacity == capacity
    {
      this.capacity := capacity;
    }
  }

  type Table = map<Topic, seq<Channel>>

  /** The listeners of a topic; a topic never subscribed to has none. */
  function Lookup(table: Table, topic: Topic): (listeners: seq<Channel>) {
    if topic in table then table[topic] else []
  }

  /** Every occurrence of `h` deleted from `s`, the rest kept in order. */
  function RemoveAll(s: seq<Channel>, h: Channel): (r: seq<Channel>)
    ensures h !in r
    ensures multiset(r) == multiset(s)[h := 0]
    ensures |r| <= |s|
  {
    if s == [] then []
    else
      assert s == [s[0]] + s[1..];
      if s[0] == h then RemoveAll(s[1..], h) else [s[0]] + RemoveAll(s[1..], h)
  }

  /** RemoveAll keeps a handle other than `h` exactly where it was relative
      to the others: it distributes over concatenation. */
  lemma {:induction false} RemoveAllConcat(a: seq<Channel>, b: seq<Channel>, h: Channel)
    ensures RemoveAll(a + b, h) == RemoveAll(a, h) + RemoveAll(b, h)
  {
    if a == [] {
      assert a + b == b;
    } else {
      assert (a + b)[1..] == a[1..] + b;
      RemoveAllConcat(a[1..], b, h);
    }
  }

  /** Removing an absent handle changes nothing. */
  lemma {:induction false} RemoveAllAbsent(s: seq<Channel>, h: Channel)
    requires h !in s
    ensures RemoveAll(s, h) == s
  {
    if s != [] {
      RemoveAllAbsent(s[1..], h);
      assert s == [s[0]] + s[1..];
    }
  }

  /** Removing a handle that was appended to a sequence without it gives
      the sequence back. */
  lemma RemoveAppended(s: seq<Channel>, h: Channel)
    requires h !in s
    ensures RemoveAll(s + [h], h) == s
  {
    RemoveAllConcat(s, [h], h);
    RemoveAllAbsent(s, h);
    assert [h][1..] == [];
  }

  /** Removing a handle twice is removing it once. */
  lemma RemoveAllIdempotent(s: seq<Channel>, h: Channel)
    ensures RemoveAll(RemoveAll(s, h), h) == RemoveAll(s, h)
  {
    RemoveAllAbsent(RemoveAll(s, h), h);
  }

  /** The table after Subscribe(topic, h). */
  function Added(table: Table, topic: Topic, h: Channel): (r: Table)
    ensures Lookup(r, topic) == Lookup(table, topic) + [h]
    ensures forall t :: t != topic ==> Lookup(r, t) == Lookup(table, t)
  {
    table[topic := Lookup(table, topic) + [h]]
  }

  /** The table after Unsubscribe(topic, h). */
  function Removed(table: Table, topic: Topic, h: Channel): (r: Table)
    ensures Lookup(r, topic) == RemoveAll(Lookup(table, topic), h)
    ensures h !in Lookup(r, topic)
    ensures forall t :: t != topic ==> Lookup(r, t) == Lookup(table, t)
  {
    table[topic := RemoveAll(Lookup(table, topic), h)]
  }

  /** Subscribe appends at the end (no deduplication) and touches no other topic. */
  lemma AddedLookup(table: Table, topic: Topic, h: Channel, t: Topic)
    ensures Lookup(Added(table, topic, h), t)
         == if t == topic then Lookup(table, t) + [h] else Lookup(table, t)
  {
  }

  /** Subscribing twice leaves two copies. */
  lemma AddedTwiceKeepsBoth(table: Table, topic: Topic, h: Channel)
    ensures var s := Lookup(Added(Added(table, topic, h), topic, h), topic);
            |s| == |Lookup(table, topic)| + 2 && s[|s| - 1] == h && s[|s| - 2] == h
  {
  }

  /** Unsubscribe leaves no copy of `h` under `topic` and touches no other topic. */
  lemma RemovedLookup(table: Table, topic: Topic, h: Channel, t: Topic)
    ensures Lookup(Removed(table, topic, h), t)
         == if t == topic then RemoveAll(Lookup(table, t), h) else Lookup(table, t)
    ensures h !in Lookup(Removed(table, topic, h), topic)
  {
  }

  /** Unsubscribing twice is unsubscribing once. */
  lemma RemovedIdempotent(table: Table, topic: Topic, h: Channel)
    ensures Removed(Removed(table, topic, h), topic, h) == Removed(table, topic, h)
  {
    RemoveAllIdempotent(Lookup(table, topic), h);
  }

  /** Subscribe `h` to each topic of `topics`, in list order. */
  function AddedAll(table: Table, topics: seq<Topic>, h: Channel): (r: Table)
    decreases |topics|
  {
    if topics == [] then table else AddedAll(Added(table, topics[0], h), topics[1..], h)
  }

  /** Unsubscribe `h` from each topic of `topics`, in list order. */
  function RemovedAll(table: Table, topics: seq<Topic>, h: Channel): (r: Table)
    decreases |topics|
  {
    if topics == [] then table else RemovedAll(Removed(table, topics[0], h), topics[1..], h)
  }

  /** Subscribing to one more topic at the end of the list is one more Subscribe. */
  lemma {:induction false} AddedAllSnoc(table: Table, topics: seq<Topic>, t: Topic, h: Channel)
    ensures AddedAll(table, topics + [t], h) == Added(AddedAll(table, topics, h), t, h)
    decreases |topics|
  {
    if topics == [] {
      assert [] + [t] == [t];
    } else {
      assert (topics + [t])[1..] == topics[1..] + [t];
      AddedAllSnoc(Added(table, topics[0], h), topics[1..], t, h);
    }
  }

  /** Unsubscribing from one more topic at the end of the list is one more Unsubscribe. */
  lemma {:induction false} RemovedAllSnoc(table: Table, topics: seq<Topic>, t: Topic, h: Channel)
    ensures RemovedAll(table, topics + [t], h) == Removed(RemovedAll(table, topics, h), t, h)
    decreases |topics|
  {
    if topics == [] {
      assert [] + [t] == [t];
    } else {
      assert (topics + [t])[1..] == topics[1..] + [t];
      RemovedAllSnoc(Removed(table, topics[0], h), topics[1..], t, h);
    }
  }

  /** `n` copies of `h`. */
  function Copies(h: Channel, n: nat): (r: seq<Channel>)
    ensures |r| == n
    ensures forall i :: 0 <= i < n ==> r[i] == h
  {
    if n == 0 then [] else Copies(h, n - 1) + [h]
  }

  /** After subscribing to a list of topics, each topic holds one extra copy
      of `h` per occurrence in the list, after its earlier listeners. */
  lemma {:induction false} AddedAllLookup(table: Table, topics: seq<Topic>, h: Channel, t: Topic)
    ensures Lookup(AddedAll(table, topics, h), t) == Lookup(table, t) + Copies(h, multiset(topics)[t])
    decreases |topics|
  {
    if topics == [] {
      assert Lookup(table, t) + [] == Lookup(table, t);
    } else {
      var rest := topics[1..];
      CountFirst(topics, t);
      AddedAllLookup(Added(table, topics[0], h), rest, h, t);
      var n := multiset(rest)[t];
      if topics[0] == t {
        CopiesPrepend(h, n);
        assert Lookup(table, t) + [h] + Copies(h, n) == Lookup(table, t) + ([h] + Copies(h, n));
      }
    }
  }

  lemma CopiesPrepend(h: Channel, n: nat)
    ensures [h] + Copies(h, n) == Copies(h, n + 1)
  {
  }

  /** After unsubscribing from a list of topics, `h` is gone from each of
      them and every other topic is as it was. */
  lemma {:induction false} RemovedAllLookup(table: Table, topics: seq<Topic>, h: Channel, t: Topic)
    ensures Lookup(RemovedAll(table, topics, h), t)
         == if t in topics then RemoveAll(Lookup(table, t), h) else Lookup(table, t)
    decreases |topics|
  {
    if topics != [] {
      var rest := topics[1..];
      assert t in topics <==> t == topics[0] || t in rest;
      RemovedAllLookup(Removed(table, topics[0], h), rest, h, t);
      if t == topics[0] && t in rest {
        RemoveAllIdempotent(Lookup(table, t), h);
      }
    }
  }

  /** Subscribing a handle that no topic holds to a list of topics and then
      unsubscribing it from the same list gives every topic back its
      listeners, in order. */
  lemma SubscribeUnsubscribeRoundTrip(table: Table, topics: seq<Topic>, h: Channel, t: Topic)
    requires forall u :: h !in Lookup(table, u)
    ensures Lookup(RemovedAll(AddedAll(table, topics, h), topics, h), t) == Lookup(table, t)
  {
    var added := AddedAll(table, topics, h);
    RemovedAllLookup(added, topics, h, t);
    AddedAllLookup(table, topics, h, t);
    var n := multiset(topics)[t];
    if t in topics {
      RemoveAllConcat(Lookup(table, t), Copies(h, n), h);
      RemoveAllAbsent(Lookup(table, t), h);
      assert RemoveAll(Copies(h, n), h) == [] by {
        assert h !in RemoveAll(Copies(h, n), h);
        assert multiset(RemoveAll(Copies(h, n), h)) == multiset{};
      }
    } else {
      assert n == 0;
      assert Lookup(table, t) + Copies(h, 0) == Lookup(table, t);
    }
  }

  /** One delivery attempt: the listener, the payload offered, and whether
      the listener took it before the timeout. */
  datatype Attempt = Attempt(listener: Channel, payload: Payload, delivered: bool)

  /** One attempt per listener, in registration order; `accepts(i)` says
      whether the i-th hand-off beat the timeout. */
  function Attempts(listeners: seq<Channel>, payload: Payload, accepts: nat -> bool): (r: seq<Attempt>) {
    seq(|listeners|, i requires 0 <= i < |listeners| => Attempt(listeners[i], payload, accepts(i)))
  }

  /** An emission on a topic a handle was unsubscribed from reaches that
      handle on no attempt, however many times it had been subscribed. */
  lemma NoAttemptAfterUnsubscribe(table: Table, topic: Topic, h: Channel, payload: Payload, accepts: nat -> bool)
    ensures forall a :: a in Attempts(Lookup(Removed(table, topic, h), topic), payload, accepts) ==> a.listener != h
  {
    var s := Lookup(Removed(table, topic, h), topic);
    assert h !in s;
    forall a | a in Attempts(s, payload, accepts) ensures a.listener != h {
      var i :| 0 <= i < |s| && Attempts(s, payload, accepts)[i] == a;
      assert a.listener == s[i];
    }
  }

  /** The bus: the listener table, guarded in the source by a read/write lock. */
  class Events {
    const timeout: nat
    var listeners: Table

    /** A fresh bus has no listener for any topic. */
    constructor (timeout: nat)
      ensures this.timeout == timeout
      ensures listeners == map[]
      ensures forall t :: Lookup(listeners, t) == []
    {
      this.timeout := timeout;
      listeners := map[];
    }

    method Subscribe(topic: Topic, listener: Channel)
      modifies this
      ensures listeners == Added(old(listeners), topic, listener)
    {
      listeners := listeners[topic := Lookup(listeners, topic) + [listener]];
    }

    method Unsubscribe(topic: Topic, listener: Channel)
      modifies this
      ensures listeners == Removed(old(listeners), topic, listener)
    {
      listeners := listeners[topic := RemoveAll(Lookup(listeners, topic), listener)];
    }

    /** Walks the topic's listeners once, in order, making one delivery
        attempt per entry; changes nothing. */
    method Emit(topic: Topic, payload: Payload, accepts: nat -> bool) returns (attempts: seq<Attempt>)
      ensures |attempts| == |Lookup(listeners, topic)|
      ensures forall i :: 0 <= i < |attempts| ==>
                attempts[i] == Attempt(Lookup(listeners, topic)[i], payload, accepts(i))
      ensures attempts == Attempts(Lookup(listeners, topic), payload, accepts)
    {
      var targets := Lookup(listeners, topic);
      attempts := [];
      for i := 0 to |targets|
        invariant |attempts| == i
        invariant forall j :: 0 <= j < i ==> attempts[j] == Attempt(targets[j], payload, accepts(j))
      {
        attempts := attempts + [Attempt(targets[i], payload, accepts(i))];
      }
    }
  }
}
